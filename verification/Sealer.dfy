/** packages/protocol/src/sealer.js: sign, seal, and open, over ideal primitives. */
module Sealer {
  import opened Bytes
  import opened Canonical
  import opened EnvelopeCodec
  import opened SignedCodec
  import opened Wrappers
  import Hpke
  import Instruction
  import InstructionCodec
  import KeyRing
  import Utf8

  const VERSION_1: nat := 1
  const SUITE_1: nat := 1
  const SIGNING_DOMAIN: string := "lifafa/instruction/1\n"
  const INFO: string := "lifafa/envelope/1"

  /** X25519 and HMAC, AES-GCM, and Ed25519 from a seed. */
  datatype Primitives = Primitives(
    curve: Hpke.Curve,
    encrypt: (bytes, bytes, bytes, bytes) -> bytes,
    decrypt: (bytes, bytes, bytes, bytes) -> Option<bytes>,
    devicePublicOf: bytes -> bytes,
    sign: (bytes, bytes) -> bytes,
    verify: (bytes, bytes, bytes) -> bool)

  /** Decryption undoes encryption, honest signatures verify, and the lengths are fixed. Nothing about secrecy. */
  ghost predicate Ideal(p: Primitives) {
    && Hpke.IdealCurve(p.curve)
    && (forall key, nonce, aad, message ::
          |p.encrypt(key, nonce, aad, message)| == |message| + TAG_BYTES
          && p.decrypt(key, nonce, aad, p.encrypt(key, nonce, aad, message)) == Some(message))
    && (forall seed :: |p.devicePublicOf(seed)| == PUBLIC_KEY_BYTES)
    && (forall seed, message ::
          |p.sign(seed, message)| == SIGNATURE_BYTES
          && p.verify(p.devicePublicOf(seed), message, p.sign(seed, message)))
  }

  /** Ideal primitives exist, with exchanges that are never refused; these keep no secret at all. */
  lemma IdealPrimitivesExist()
    ensures exists p: Primitives :: Ideal(p) && forall a, b :: !Hpke.IsZero(p.curve.agree(a, b))
  {
    var ones: bytes := seq(32, _ => 1);
    var curve := Hpke.Curve((scalar: bytes) => ones, (a: bytes, b: bytes) => ones,
        (key: bytes, message: bytes) => ones);
    var tag: bytes := seq(16, _ => 0);
    var p := Primitives(
      curve,
      (key: bytes, nonce: bytes, aad: bytes, message: bytes) => message + tag,
      (key: bytes, nonce: bytes, aad: bytes, sealed: bytes) =>
        if |sealed| < 16 then None else Some(sealed[..|sealed| - 16]),
      (seed: bytes) => ones,
      (seed: bytes, message: bytes) => ones + ones,
      (key: bytes, message: bytes, signature: bytes) => true);
    assert ones[0] == 1;
    forall message: bytes
      ensures (message + tag)[..|message + tag| - 16] == message
    {}
    assert Ideal(p);
  }

  function SigningInput(p: Instruction.PaymentInstruction): bytes
    requires Instruction.WellFormed(p)
  {
    Utf8.Encode(SIGNING_DOMAIN) + InstructionCodec.EncodeInstruction(p)
  }

  function SignInstruction(p: Primitives, seed: bytes, instruction: Instruction.PaymentInstruction): SignedInstruction
    requires Instruction.WellFormed(instruction)
  {
    SignedInstruction(instruction, p.devicePublicOf(seed), p.sign(seed, SigningInput(instruction)))
  }

  /** verifySignature answers false, never an exception, to a key or signature of the wrong length. */
  predicate HasValidSignature(p: Primitives, s: SignedInstruction)
    requires Instruction.WellFormed(s.instruction)
  {
    && |s.signature| == SIGNATURE_BYTES && |s.devicePublicKey| == PUBLIC_KEY_BYTES
    && p.verify(s.devicePublicKey, SigningInput(s.instruction), s.signature)
  }

  // ---------------------------------------------------------------------------------------------
  // Sealing
  // ---------------------------------------------------------------------------------------------

  function Schedule(p: Primitives, sharedSecret: bytes): (c: Hpke.Context)
    requires Hpke.IdealCurve(p.curve)
    ensures |c.key| == 32 && |c.baseNonce| == 12
  {
    Hpke.KeySchedule(p.curve.hmac, Hpke.X25519_SHA256_AES256GCM, sharedSecret, Utf8.Encode(INFO)).value
  }

  datatype SealError = Unusable(what: string) | Unencodable(error: OutOfRange)

  /** The shell with the message encrypted into it, its header as associated data. */
  function Encrypt(p: Primitives, shell: Envelope, sharedSecret: bytes, message: bytes): Result<Envelope, SealError>
    requires Hpke.IdealCurve(p.curve)
  {
    var context := Schedule(p, sharedSecret);
    match Header(shell)
    case Err(e) => Err(Unencodable(e))
    case Ok(aad) => Ok(shell.(ciphertext := p.encrypt(context.key, Hpke.Nonce(context.baseNonce, 0), aad, message)))
  }

  function Shell(keyId: int, enc: bytes): Envelope {
    Envelope(VERSION_1, SUITE_1, keyId, enc, [])
  }

  /** The ephemeral scalar is the one fresh input of a seal. */
  function SealSigned(p: Primitives, s: SignedInstruction, serverPublicKey: bytes, keyId: int,
                      ephemeral: bytes): Result<Envelope, SealError>
    requires Hpke.IdealCurve(p.curve) && Instruction.WellFormed(s.instruction)
  {
    match Hpke.EncapsulateWith(p.curve, Hpke.X25519_SHA256_AES256GCM, serverPublicKey, ephemeral)
    case Err(what) => Err(Unusable(what))
    case Ok(sent) =>
      if Header(Shell(keyId, sent.enc)).Err? then Err(Unencodable(Header(Shell(keyId, sent.enc)).error)) else
      match EncodeSigned(s)
      case Err(e) => Err(Unencodable(e))
      case Ok(message) => Encrypt(p, Shell(keyId, sent.enc), sent.sharedSecret, message)
  }

  // ---------------------------------------------------------------------------------------------
  // Opening
  // ---------------------------------------------------------------------------------------------

  datatype Reason = MALFORMED | UNSUPPORTED | UNKNOWN_SERVER_KEY | DECRYPT_FAILED | MALFORMED_PLAINTEXT | BAD_SIGNATURE

  datatype Failure = Failure(reason: Reason, detail: string)

  function Decrypt(p: Primitives, e: Envelope, sharedSecret: bytes): Result<bytes, Failure>
    requires Hpke.IdealCurve(p.curve)
  {
    var context := Schedule(p, sharedSecret);
    match Header(e)
    case Err(_) => Err(Failure(DECRYPT_FAILED, "GCM tag did not verify"))
    case Ok(aad) =>
      match p.decrypt(context.key, Hpke.Nonce(context.baseNonce, 0), aad, e.ciphertext)
      case None => Err(Failure(DECRYPT_FAILED, "GCM tag did not verify"))
      case Some(plaintext) => Ok(plaintext)
  }

  /** What is inside, once it is readable. */
  function CheckPlaintext(p: Primitives, plaintext: bytes): (r: Result<SignedInstruction, Failure>)
    ensures r.Ok? ==> Instruction.WellFormed(r.value.instruction) && HasValidSignature(p, r.value)
  {
    match DecodeSigned(plaintext)
    case Err(_) => Err(Failure(MALFORMED_PLAINTEXT, "unreadable plaintext"))
    case Ok(s) =>
      DecodedIsWellFormed(plaintext);
      if HasValidSignature(p, s) then Ok(s)
          else Err(Failure(BAD_SIGNATURE, "the signature does not match the device key"))
  }

  lemma DecodedIsWellFormed(b: bytes)
    requires DecodeSigned(b).Ok?
    ensures Instruction.WellFormed(DecodeSigned(b).value.instruction)
  {
    hide DecodeEnvelope, EncodeEnvelope, Header, EncodeSigned, DecodeSigned, Schedule, SigningInput;
    ReencodesUnlessBom(b);
  }

  function OpenWith(p: Primitives, e: Envelope, scalar: bytes): Result<SignedInstruction, Failure>
    requires Hpke.IdealCurve(p.curve)
  {
    match Hpke.Decapsulate(p.curve, Hpke.X25519_SHA256_AES256GCM, scalar, e.enc)
    case Err(what) => Err(Failure(MALFORMED, what))
    case Ok(secret) =>
      var plaintext :- Decrypt(p, e, secret);
      CheckPlaintext(p, plaintext)
  }

  function Open(p: Primitives, wire: bytes, ring: KeyRing.Ring): Result<SignedInstruction, Failure>
    requires Hpke.IdealCurve(p.curve)
  {
    match DecodeEnvelope(wire)
    case Err(_) => Err(Failure(MALFORMED, "not an envelope"))
    case Ok(e) =>
      if e.version != VERSION_1 then Err(Failure(UNSUPPORTED, "version"))
      else if e.suite != SUITE_1 then Err(Failure(UNSUPPORTED, "suite"))
      else match KeyRing.LookupKey(ring, e.serverKeyId)
           case None => Err(Failure(UNKNOWN_SERVER_KEY, "no server key with this id"))
           case Some(key) => OpenWith(p, e, key.privateKey)
  }

  // ---------------------------------------------------------------------------------------------
  // Theorems
  // ---------------------------------------------------------------------------------------------

  /** The ring holds the private half of this public key under this id. */
  predicate Holds(p: Primitives, ring: KeyRing.Ring, keyId: int, publicKey: bytes) {
    && 0 <= keyId < 0x1_0000_0000 && keyId in ring.keys
    && |ring.keys[keyId].privateKey| == 32 && p.curve.publicOf(ring.keys[keyId].privateKey) == publicKey
  }

  lemma EncryptFillsTheShell(p: Primitives, shell: Envelope, secret: bytes, message: bytes)
    requires Ideal(p) && Header(shell).Ok?
    ensures var sealed := Encrypt(p, shell, secret, message);
            && sealed.Ok? && sealed.value == shell.(ciphertext := sealed.value.ciphertext)
            && |sealed.value.ciphertext| == |message| + 16
            && Decrypt(p, sealed.value, secret) == Ok(message)
  {
    hide DecodeEnvelope, EncodeEnvelope, Header, EncodeSigned, DecodeSigned, Schedule, SigningInput;
    HeaderIgnoresCiphertext(shell, Encrypt(p, shell, secret, message).value.ciphertext);
  }

  /** Decryption gives back what was encrypted, in an envelope that travels. */
  lemma DecryptUndoesEncrypt(p: Primitives, keyId: int, enc: bytes, secret: bytes, message: bytes)
    requires Ideal(p) && 0 <= keyId < 0x1_0000_0000 && |enc| == 32 && |message| <= 4096 - 60
    ensures var sealed := Encrypt(p, Shell(keyId, enc), secret, message);
            && sealed.Ok? && sealed.value == Shell(keyId, enc).(ciphertext := sealed.value.ciphertext)
            && Decrypt(p, sealed.value, secret) == Ok(message)
            && EncodeEnvelope(sealed.value).Ok? && |EncodeEnvelope(sealed.value).value| == 60 + |message|
            && DecodeEnvelope(EncodeEnvelope(sealed.value).value) == Ok(sealed.value)
  {
    hide DecodeEnvelope, EncodeEnvelope, Header, EncodeSigned, DecodeSigned, Schedule, SigningInput;
    HeaderIgnoresCiphertext(Shell(keyId, enc), []);
    EncryptFillsTheShell(p, Shell(keyId, enc), secret, message);
    ProperEnvelopeRoundTrip(Encrypt(p, Shell(keyId, enc), secret, message).value);
  }

  lemma DhFails(c: Hpke.Curve, scalar: bytes, publicKey: bytes)
    requires Hpke.IdealCurve(c) && |scalar| == |publicKey| == 32
    ensures Hpke.Dh(c, scalar, publicKey).Err? <==> Hpke.IsZero(c.agree(scalar, publicKey))
    ensures var sent := Hpke.EncapsulateWith(c, Hpke.X25519_SHA256_AES256GCM, publicKey, scalar);
            (sent.Err? <==> Hpke.Dh(c, scalar, publicKey).Err?) && (sent.Ok? ==> |sent.value.enc| == 32)
  {}

  /** A proper payment is sealed by encrypting its bytes to whatever secret the exchange gives. */
  lemma SealIsEncrypt(p: Primitives, s: SignedInstruction, publicKey: bytes, keyId: int, ephemeral: bytes)
    requires Ideal(p) && Instruction.WellFormed(s.instruction) && |s.devicePublicKey| == 32 && |s.signature| == 64
    requires |publicKey| == |ephemeral| == 32 && 0 <= keyId < 0x1_0000_0000
    ensures EncodeSigned(s).Ok?
    ensures match Hpke.EncapsulateWith(p.curve, Hpke.X25519_SHA256_AES256GCM, publicKey, ephemeral)
            case Err(what) => SealSigned(p, s, publicKey, keyId, ephemeral).Err?
            case Ok(sent) => SealSigned(p, s, publicKey, keyId, ephemeral)
                             == Encrypt(p, Shell(keyId, sent.enc), sent.sharedSecret, EncodeSigned(s).value)
  {
    hide DecodeEnvelope, EncodeEnvelope, Header, EncodeSigned, DecodeSigned, Schedule, SigningInput;
    ProperSignedRoundTrip(s);
    DhFails(p.curve, ephemeral, publicKey);
  }

  /** Sealing fails only on an unusable exchange, and the length of its envelope depends only on the payment's names. */
  lemma SealedLength(p: Primitives, s: SignedInstruction, publicKey: bytes, keyId: int, ephemeral: bytes)
    requires Ideal(p) && Instruction.WellFormed(s.instruction) && |s.devicePublicKey| == 32 && |s.signature| == 64
    requires |publicKey| == |ephemeral| == 32 && 0 <= keyId < 0x1_0000_0000
    ensures var sealed := SealSigned(p, s, publicKey, keyId, ephemeral);
            && (sealed.Err? <==> Hpke.IsZero(p.curve.agree(ephemeral, publicKey)))
            && (sealed.Ok? ==>
                  && EncodeEnvelope(sealed.value).Ok?
                  && |EncodeEnvelope(sealed.value).value|
                      == 237 + |s.instruction.senderVpa| + |s.instruction.receiverVpa| <= 365)
  {
    hide DecodeEnvelope, EncodeEnvelope, Header, EncodeSigned, DecodeSigned, Schedule, SigningInput;
    ProperSignedRoundTrip(s);
    SealIsEncrypt(p, s, publicKey, keyId, ephemeral);
    DhFails(p.curve, ephemeral, publicKey);
    match Hpke.EncapsulateWith(p.curve, Hpke.X25519_SHA256_AES256GCM, publicKey, ephemeral)
    case Err(_) =>
    case Ok(sent) => DecryptUndoesEncrypt(p, keyId, sent.enc, sent.sharedSecret, EncodeSigned(s).value);
  }

  /** The longest payment's envelope has exactly the greatest length. */
  lemma LongestEnvelope(p: Primitives, seed: bytes, nonce: string, publicKey: bytes, keyId: int, ephemeral: bytes)
    requires Ideal(p) && |publicKey| == |ephemeral| == 32 && 0 <= keyId < 0x1_0000_0000
    requires !Hpke.IsZero(p.curve.agree(ephemeral, publicKey)) && Instruction.IsUuidV4(nonce)
    ensures Instruction.WellFormed(InstructionCodec.LongestPayment(nonce))
    ensures var sealed := SealSigned(p, SignInstruction(p, seed, InstructionCodec.LongestPayment(nonce)), publicKey,
              keyId, ephemeral);
            sealed.Ok? && EncodeEnvelope(sealed.value).Ok? && |EncodeEnvelope(sealed.value).value| == 365
  {
    InstructionCodec.LongestIsReached(nonce);
    InstructionCodec.LongNameIsVpa('a');
    InstructionCodec.LongNameIsVpa('b');
    SealedLength(p, SignInstruction(p, seed, InstructionCodec.LongestPayment(nonce)), publicKey, keyId, ephemeral);
  }

  /** The service opens what was sealed to its key, under every ring that still holds that key. */
  lemma OpenUndoesSeal(p: Primitives, s: SignedInstruction, publicKey: bytes, keyId: int, ephemeral: bytes,
                       ring: KeyRing.Ring, later: KeyRing.Ring)
    requires Ideal(p) && Instruction.WellFormed(s.instruction) && HasValidSignature(p, s)
    requires |ephemeral| == 32 && Holds(p, ring, keyId, publicKey) && KeyRing.Extends(later, ring)
    requires SealSigned(p, s, publicKey, keyId, ephemeral).Ok?
    ensures var wire := EncodeEnvelope(SealSigned(p, s, publicKey, keyId, ephemeral).value);
            wire.Ok? && Open(p, wire.value, later) == Ok(s)
  {
    hide DecodeEnvelope, EncodeEnvelope, Header, EncodeSigned, DecodeSigned, Schedule, SigningInput;
    var scalar := ring.keys[keyId].privateKey;
    assert later.keys[keyId] == ring.keys[keyId];
    ProperSignedRoundTrip(s);
    SealIsEncrypt(p, s, publicKey, keyId, ephemeral);
    Hpke.KemRoundTrip(p.curve, Hpke.X25519_SHA256_AES256GCM, scalar, ephemeral);
    var sent := Hpke.EncapsulateWith(p.curve, Hpke.X25519_SHA256_AES256GCM, publicKey, ephemeral).value;
    DecryptUndoesEncrypt(p, keyId, sent.enc, sent.sharedSecret, EncodeSigned(s).value);
    var e := SealSigned(p, s, publicKey, keyId, ephemeral).value;
    OpensTo(p, EncodeEnvelope(e).value, e, later, sent.sharedSecret, s);
  }

  lemma OpensTo(p: Primitives, wire: bytes, e: Envelope, ring: KeyRing.Ring, secret: bytes, s: SignedInstruction)
    requires Hpke.IdealCurve(p.curve) && DecodeEnvelope(wire) == Ok(e)
    requires e.version == VERSION_1 && e.suite == SUITE_1 && e.serverKeyId in ring.keys
    requires Hpke.Decapsulate(p.curve, Hpke.X25519_SHA256_AES256GCM, ring.keys[e.serverKeyId].privateKey, e.enc)
               == Ok(secret)
    requires Decrypt(p, e, secret).Ok? && DecodeSigned(Decrypt(p, e, secret).value) == Ok(s)
    requires Instruction.WellFormed(s.instruction) && HasValidSignature(p, s)
    ensures Open(p, wire, ring) == Ok(s)
  {
    hide DecodeEnvelope, EncodeEnvelope, Header, EncodeSigned, DecodeSigned, Schedule, SigningInput;
  }

  /** A sealed envelope names the key it is sealed to. */
  lemma SealedNamesItsKey(p: Primitives, s: SignedInstruction, publicKey: bytes, keyId: int, ephemeral: bytes,
                          ring: KeyRing.Ring)
    requires Ideal(p) && Instruction.WellFormed(s.instruction) && HasValidSignature(p, s)
    requires |ephemeral| == 32 && Holds(p, ring, keyId, publicKey)
    requires SealSigned(p, s, publicKey, keyId, ephemeral).Ok?
    ensures var wire := EncodeEnvelope(SealSigned(p, s, publicKey, keyId, ephemeral).value);
            wire.Ok? && DecodeEnvelope(wire.value).Ok? && DecodeEnvelope(wire.value).value.serverKeyId == keyId
  {
    hide DecodeEnvelope, EncodeEnvelope, Header, EncodeSigned, DecodeSigned, Schedule, SigningInput;
    ProperSignedRoundTrip(s);
    SealIsEncrypt(p, s, publicKey, keyId, ephemeral);
    DhFails(p.curve, ephemeral, publicKey);
    var sent := Hpke.EncapsulateWith(p.curve, Hpke.X25519_SHA256_AES256GCM, publicKey, ephemeral).value;
    DecryptUndoesEncrypt(p, keyId, sent.enc, sent.sharedSecret, EncodeSigned(s).value);
  }

  /** From the device's own seed to the service's reading of it. */
  lemma PaymentArrives(p: Primitives, seed: bytes, instruction: Instruction.PaymentInstruction, publicKey: bytes,
                       keyId: int,
                       ephemeral: bytes, ring: KeyRing.Ring, later: KeyRing.Ring)
    requires Ideal(p) && Instruction.WellFormed(instruction)
    requires |ephemeral| == 32 && Holds(p, ring, keyId, publicKey) && KeyRing.Extends(later, ring)
    requires SealSigned(p, SignInstruction(p, seed, instruction), publicKey, keyId, ephemeral).Ok?
    ensures var wire := EncodeEnvelope(SealSigned(p, SignInstruction(p, seed, instruction), publicKey, keyId,
              ephemeral).value);
            && wire.Ok? && Open(p, wire.value, later) == Ok(SignInstruction(p, seed, instruction))
            && SignInstruction(p, seed, instruction).instruction == instruction
            && SignInstruction(p, seed, instruction).devicePublicKey == p.devicePublicOf(seed)
  {
    hide DecodeEnvelope, EncodeEnvelope, Header, EncodeSigned, DecodeSigned, Schedule, SigningInput;
    OpenUndoesSeal(p, SignInstruction(p, seed, instruction), publicKey, keyId, ephemeral, ring, later);
  }

  /** More keys change no reading but "no such key", which is the answer exactly when the named key is missing. */
  lemma MoreKeysOnlyHelp(p: Primitives, wire: bytes, ring: KeyRing.Ring, later: KeyRing.Ring)
    requires Hpke.IdealCurve(p.curve) && KeyRing.Extends(later, ring)
    ensures var before := Open(p, wire, ring);
            var unknown := before.Err? && before.error.reason == UNKNOWN_SERVER_KEY;
            && (!unknown ==> Open(p, wire, later) == before)
            && (unknown <==> DecodeEnvelope(wire).Ok? && DecodeEnvelope(wire).value.version == VERSION_1
                             && DecodeEnvelope(wire).value.suite == SUITE_1
                             && DecodeEnvelope(wire).value.serverKeyId !in ring.keys)
  {
    hide DecodeEnvelope, EncodeEnvelope, Header, EncodeSigned, DecodeSigned, Schedule, SigningInput;
    match DecodeEnvelope(wire)
    case Err(_) =>
    case Ok(e) =>
      if e.serverKeyId in ring.keys {
        assert later.keys[e.serverKeyId] == ring.keys[e.serverKeyId];
        OpenWithKnowsItsKey(p, e, ring.keys[e.serverKeyId].privateKey);
      }
  }

  lemma OpenWithKnowsItsKey(p: Primitives, e: Envelope, scalar: bytes)
    requires Hpke.IdealCurve(p.curve)
    ensures OpenWith(p, e, scalar).Err? ==> OpenWith(p, e, scalar).error.reason != UNKNOWN_SERVER_KEY
  {
    hide DecodeEnvelope, EncodeEnvelope, Header, EncodeSigned, DecodeSigned, Schedule, SigningInput;
  }

  lemma OpenPassesTheChecks(p: Primitives, wire: bytes, ring: KeyRing.Ring)
    requires Hpke.IdealCurve(p.curve) && Open(p, wire, ring).Ok?
    ensures var s := Open(p, wire, ring).value;
            Instruction.WellFormed(s.instruction) && HasValidSignature(p, s)
    ensures DecodeEnvelope(wire).Ok? && DecodeEnvelope(wire).value.serverKeyId in ring.keys
  {
    hide DecodeEnvelope, EncodeEnvelope, Header, EncodeSigned, DecodeSigned, Schedule, SigningInput;
  }

  /**
   * Whatever opens is an intact envelope of version 1 and suite 1, its first 44 bytes authenticated, around
   * a payment that its own device key has signed, domain first.
   */
  lemma OpenedIsGenuine(p: Primitives, wire: bytes, ring: KeyRing.Ring)
    requires Hpke.IdealCurve(p.curve) && Open(p, wire, ring).Ok?
    ensures var s := Open(p, wire, ring).value;
            && Instruction.WellFormed(s.instruction) && |s.devicePublicKey| == 32 && |s.signature| == 64
            && p.verify(s.devicePublicKey,
                 Utf8.Encode("lifafa/instruction/1\n") + InstructionCodec.EncodeInstruction(s.instruction), s.signature)
    ensures DecodeEnvelope(wire).Ok? && DecodeEnvelope(wire).value.serverKeyId in ring.keys
    ensures DecodeEnvelope(wire).value.version == 1 && DecodeEnvelope(wire).value.suite == 1
    ensures 60 <= |wire| <= 4096 && Header(DecodeEnvelope(wire).value) == Ok(wire[..44])
  {
    OpenPassesTheChecks(p, wire, ring);
    hide DecodeEnvelope, EncodeEnvelope, Header, EncodeSigned, DecodeSigned, Schedule;
    AcceptedReencodes(wire);
  }

  /** The first nonce is the base nonce itself. */
  lemma FirstNonce(baseNonce: bytes)
    requires |baseNonce| >= 8
    ensures Hpke.Nonce(baseNonce, 0) == baseNonce
  {
    forall k | 0 <= k < |baseNonce|
      ensures Hpke.Nonce(baseNonce, 0)[k] == baseNonce[k]
    {
      ZeroesAreZero(8);
      Hpke.ByteOfNonce(baseNonce, 0, k);
      Hpke.ByteSpan();
      Hpke.XorBitsZero(baseNonce[k], 8);
    }
  }

  lemma {:induction false} ZeroesAreZero(n: nat)
    ensures BigEndian(0, n) == seq(n, _ => 0)
  {
    if n > 0 {
      ZeroesAreZero(n - 1);
    }
  }

  /** What the cipher makes of an envelope, its first 44 bytes authenticated, under the keys scheduled from a secret. */
  lemma DecryptMeans(p: Primitives, wire: bytes, secret: bytes)
    requires Hpke.IdealCurve(p.curve) && DecodeEnvelope(wire).Ok?
    ensures |wire| >= 44
    ensures var keys := Hpke.KeySchedule(p.curve.hmac, Hpke.X25519_SHA256_AES256GCM, secret,
              Utf8.Encode("lifafa/envelope/1")).value;
            Decrypt(p, DecodeEnvelope(wire).value, secret)
            == match p.decrypt(keys.key, keys.baseNonce, wire[..44], DecodeEnvelope(wire).value.ciphertext)
               case Some(plaintext) => Ok(plaintext)
               case None => Err(Failure(DECRYPT_FAILED, "GCM tag did not verify"))
  {
    AcceptedReencodes(wire);
    FirstNonce(Schedule(p, secret).baseNonce);
    hide DecodeEnvelope, EncodeEnvelope, Header, Hpke.KeySchedule;
  }

  /**
   * An envelope sealed to a key of the ring, read with the cipher, the parser and the signature check alone:
   * it opens exactly if its bytes decrypt, parse, and hold a signature over the payment that verifies, and
   * otherwise the failure says which of the three was first to fail.
   */
  lemma OpenAnswers(p: Primitives, wire: bytes, ring: KeyRing.Ring, secret: bytes)
    requires Hpke.IdealCurve(p.curve) && DecodeEnvelope(wire).Ok?
    requires DecodeEnvelope(wire).value.version == 1 && DecodeEnvelope(wire).value.suite == 1
    requires DecodeEnvelope(wire).value.serverKeyId in ring.keys
    requires Hpke.Decapsulate(p.curve, Hpke.X25519_SHA256_AES256GCM,
               ring.keys[DecodeEnvelope(wire).value.serverKeyId].privateKey, DecodeEnvelope(wire).value.enc)
               == Ok(secret)
    ensures |wire| >= 44
    ensures var keys := Hpke.KeySchedule(p.curve.hmac, Hpke.X25519_SHA256_AES256GCM, secret,
              Utf8.Encode("lifafa/envelope/1")).value;
            match p.decrypt(keys.key, keys.baseNonce, wire[..44], DecodeEnvelope(wire).value.ciphertext)
            case None => Open(p, wire, ring) == Err(Failure(DECRYPT_FAILED, "GCM tag did not verify"))
            case Some(plaintext) =>
              match DecodeSigned(plaintext)
              case Err(_) => Open(p, wire, ring) == Err(Failure(MALFORMED_PLAINTEXT, "unreadable plaintext"))
              case Ok(s) =>
                && Instruction.WellFormed(s.instruction)
                && Open(p, wire, ring) ==
                   if p.verify(s.devicePublicKey,
                        Utf8.Encode("lifafa/instruction/1\n") + InstructionCodec.EncodeInstruction(s.instruction),
                        s.signature)
                   then Ok(s) else Err(Failure(BAD_SIGNATURE, "the signature does not match the device key"))
  {
    hide DecodeEnvelope, EncodeEnvelope, DecodeSigned, Decrypt, Hpke.KeySchedule, Hpke.Decapsulate, CheckPlaintext,
      Utf8.Encode, InstructionCodec.EncodeInstruction, Instruction.WellFormed;
    DecryptMeans(p, wire, secret);
    var reading := Decrypt(p, DecodeEnvelope(wire).value, secret);
    if reading.Ok? {
      PlaintextAnswers(p, reading.value);
    }
  }

  /** The refusals that need no decryption, each with its exact cause. */
  lemma WhyRefused(p: Primitives, wire: bytes, ring: KeyRing.Ring)
    requires Hpke.IdealCurve(p.curve) && Open(p, wire, ring).Err?
    ensures Open(p, wire, ring).error.reason == UNSUPPORTED <==>
            DecodeEnvelope(wire).Ok? && !(DecodeEnvelope(wire).value.version == DecodeEnvelope(wire).value.suite == 1)
    ensures Open(p, wire, ring).error.reason == MALFORMED <==>
            || DecodeEnvelope(wire).Err?
            || (&& DecodeEnvelope(wire).value.version == DecodeEnvelope(wire).value.suite == 1
                && DecodeEnvelope(wire).value.serverKeyId in ring.keys
                && Hpke.Decapsulate(p.curve, Hpke.X25519_SHA256_AES256GCM,
                     ring.keys[DecodeEnvelope(wire).value.serverKeyId].privateKey,
                     DecodeEnvelope(wire).value.enc).Err?)
  {
    hide DecodeEnvelope, EncodeEnvelope, DecodeSigned, Schedule, Hpke.Decapsulate, HasValidSignature;
  }

  lemma DecodedIsSigned(b: bytes)
    requires DecodeSigned(b).Ok?
    ensures |DecodeSigned(b).value.devicePublicKey| == 32 && |DecodeSigned(b).value.signature| == 64
  {
    hide InstructionCodec.DecodeInstruction, GetParts;
  }

  lemma PlaintextAnswers(p: Primitives, plaintext: bytes)
    ensures match DecodeSigned(plaintext)
            case Err(_) => CheckPlaintext(p, plaintext) == Err(Failure(MALFORMED_PLAINTEXT, "unreadable plaintext"))
            case Ok(s) =>
              && Instruction.WellFormed(s.instruction)
              && CheckPlaintext(p, plaintext) ==
                 if p.verify(s.devicePublicKey,
                      Utf8.Encode("lifafa/instruction/1\n") + InstructionCodec.EncodeInstruction(s.instruction),
                      s.signature)
                 then Ok(s) else Err(Failure(BAD_SIGNATURE, "the signature does not match the device key"))
  {
    hide DecodeSigned, Utf8.Encode, InstructionCodec.EncodeInstruction, Instruction.WellFormed;
    if DecodeSigned(plaintext).Ok? {
      DecodedIsWellFormed(plaintext);
      DecodedIsSigned(plaintext);
    }
  }

  /**
   * What a sealed envelope is: a 44-byte header naming the key, with the public half of the ephemeral scalar,
   * and the signed bytes encrypted behind it under the keys scheduled from the exchange.
   */
  lemma SealedIs(p: Primitives, s: SignedInstruction, publicKey: bytes, keyId: int, ephemeral: bytes)
    requires Ideal(p) && Instruction.WellFormed(s.instruction) && |s.devicePublicKey| == 32 && |s.signature| == 64
    requires |publicKey| == |ephemeral| == 32 && 0 <= keyId < 0x1_0000_0000
    requires SealSigned(p, s, publicKey, keyId, ephemeral).Ok?
    ensures var e := SealSigned(p, s, publicKey, keyId, ephemeral).value;
            && e.version == 1 && e.suite == 1 && e.serverKeyId == keyId && e.enc == p.curve.publicOf(ephemeral)
            && EncodeEnvelope(e).Ok? && |EncodeEnvelope(e).value| >= 44 && EncodeSigned(s).Ok?
            && exists secret :: Hpke.EncapsulateWith(p.curve, Hpke.X25519_SHA256_AES256GCM, publicKey, ephemeral)
                  == Ok(Hpke.Encapsulated(e.enc, secret))
                && var keys := Hpke.KeySchedule(p.curve.hmac, Hpke.X25519_SHA256_AES256GCM, secret,
                     Utf8.Encode("lifafa/envelope/1")).value;
                   EncodeEnvelope(e).value == EncodeEnvelope(e).value[..44]
                     + p.encrypt(keys.key, keys.baseNonce, EncodeEnvelope(e).value[..44], EncodeSigned(s).value)
  {
    hide DecodeEnvelope, EncodeSigned, DecodeSigned;
    ProperSignedRoundTrip(s);
    SealIsEncrypt(p, s, publicKey, keyId, ephemeral);
    DhFails(p.curve, ephemeral, publicKey);
    var sent := Hpke.EncapsulateWith(p.curve, Hpke.X25519_SHA256_AES256GCM, publicKey, ephemeral).value;
    FirstNonce(Schedule(p, sent.sharedSecret).baseNonce);
    DecryptUndoesEncrypt(p, keyId, sent.enc, sent.sharedSecret, EncodeSigned(s).value);
    var e := SealSigned(p, s, publicKey, keyId, ephemeral).value;
    AcceptedReencodes(EncodeEnvelope(e).value);
    HeaderIgnoresCiphertext(Shell(keyId, sent.enc), e.ciphertext);
    assert Hpke.EncapsulateWith(p.curve, Hpke.X25519_SHA256_AES256GCM, publicKey, ephemeral)
        == Ok(Hpke.Encapsulated(e.enc, sent.sharedSecret));
  }
}
