/** packages/protocol/src/signed.js: an instruction with the key and the signature of its device. */
module SignedCodec {
  import opened Bytes
  import opened Canonical
  import opened Wrappers
  import Instruction
  import InstructionCodec

  const PUBLIC_KEY_BYTES: nat := 32
  const SIGNATURE_BYTES: nat := 64

  datatype SignedInstruction = SignedInstruction(
    instruction: Instruction.PaymentInstruction,
    devicePublicKey: bytes,
    signature: bytes)

  /** The device's key, its signature, and the encoded instruction, each behind its length. */
  type Parts = (bytes, (bytes, bytes))

  const PARTS: Format<Parts> := Both(BYTES_FORMAT, Both(BYTES_FORMAT, BYTES_FORMAT))

  lemma PartsAreExact()
    ensures Exact(PARTS)
  {
    BytesAreExact();
    BothIsExact(BYTES_FORMAT, BYTES_FORMAT);
    BothIsExact(BYTES_FORMAT, Both(BYTES_FORMAT, BYTES_FORMAT));
  }

  function GetParts(input: bytes, offset: nat): (r: Result<(Parts, nat), Malformed>)
    ensures r.Ok? ==> r.value.1 <= |input|
  {
    PartsAreExact();
    PARTS.get(input, offset)
  }

  function Layout(parts: Parts): bytes {
    Prefixed(parts.0) + Prefixed(parts.1.0) + Prefixed(parts.1.1)
  }

  function PartsOf(s: SignedInstruction): Parts
    requires Instruction.WellFormed(s.instruction)
  {
    (s.devicePublicKey, (s.signature, InstructionCodec.EncodeInstruction(s.instruction)))
  }

  /** Err when the key or the signature is too long for its length field. */
  function EncodeSigned(s: SignedInstruction): Result<bytes, OutOfRange>
    requires Instruction.WellFormed(s.instruction)
  {
    if |s.devicePublicKey| >= 0x1_0000 then Err(OutOfRange(|s.devicePublicKey|))
    else if |s.signature| >= 0x1_0000 then Err(OutOfRange(|s.signature|))
    else Ok(Layout(PartsOf(s)))
  }

  function Finish(s: SignedInstruction, unread: nat): Result<SignedInstruction, Malformed> {
    if unread > 0 then Err(TrailingBytes(unread))
    else if |s.devicePublicKey| != PUBLIC_KEY_BYTES then Err(Problem("device public key must be 32 bytes"))
    else if |s.signature| != SIGNATURE_BYTES then Err(Problem("signature must be 64 bytes"))
    else Ok(s)
  }

  function DecodeSigned(input: bytes): Result<SignedInstruction, Malformed> {
    var read :- GetParts(input, 0);
    var (key, (signature, encoded)) := read.0;
    var instruction :- InstructionCodec.DecodeInstruction(encoded);
    Finish(SignedInstruction(instruction, key, signature), |input| - read.1)
  }

  /** The instruction's own bytes inside accepted bytes. */
  function WireInstruction(b: bytes): bytes
    requires DecodeSigned(b).Ok?
  {
    GetParts(b, 0).value.0.1.1
  }

  lemma LayoutIsRead(parts: Parts)
    requires PARTS.fits(parts)
    ensures GetParts(Layout(parts), 0) == Ok((parts, |Layout(parts)|))
  {
    PartsAreExact();
    assert Layout(parts) == PARTS.lay(parts);
    WholeIsAt(Layout(parts), PARTS.lay(parts));
    assert ReadsBack(PARTS, Layout(parts), 0, parts);
  }

  lemma AcceptedIsLayout(b: bytes)
    requires DecodeSigned(b).Ok?
    ensures var s := DecodeSigned(b).value;
            b == Layout((s.devicePublicKey, (s.signature, WireInstruction(b))))
            && InstructionCodec.DecodeInstruction(WireInstruction(b)) == Ok(s.instruction)
            && |s.devicePublicKey| == 32 && |s.signature| == 64 && |WireInstruction(b)| < 0x1_0000
  {
    PartsAreExact();
    var parts := GetParts(b, 0).value.0;
    assert PARTS.lay(parts) == Layout(parts);
    WholeIsAt(b, Layout(parts));
  }

  /** A signed instruction decodes to itself exactly when its key and signature have their lengths. */
  lemma SignedRoundTrip(s: SignedInstruction)
    requires Instruction.WellFormed(s.instruction) && EncodeSigned(s).Ok?
    ensures DecodeSigned(EncodeSigned(s).value) == Finish(s, 0)
    ensures DecodeSigned(EncodeSigned(s).value) == Ok(s) <==> |s.devicePublicKey| == 32 && |s.signature| == 64
    ensures |EncodeSigned(s).value|
         == 81 + |s.devicePublicKey| + |s.signature| + |s.instruction.senderVpa| + |s.instruction.receiverVpa|
  {
    InstructionCodec.InstructionRoundTrip(s.instruction);
    LayoutIsRead(PartsOf(s));
  }

  lemma ProperSignedRoundTrip(s: SignedInstruction)
    requires Instruction.WellFormed(s.instruction) && |s.devicePublicKey| == 32 && |s.signature| == 64
    ensures EncodeSigned(s).Ok? && DecodeSigned(EncodeSigned(s).value) == Ok(s)
    ensures |EncodeSigned(s).value| == 177 + |s.instruction.senderVpa| + |s.instruction.receiverVpa| <= 305
  {
    SignedRoundTrip(s);
    InstructionCodec.InstructionRoundTrip(s.instruction);
  }

  /** What the bytes are: the key, the signature and the encoded instruction, each behind its u16 length. */
  lemma BytesOfSigned(s: SignedInstruction)
    requires Instruction.WellFormed(s.instruction) && |s.devicePublicKey| == 32 && |s.signature| == 64
    ensures EncodeSigned(s).Ok?
    ensures var inner := InstructionCodec.EncodeInstruction(s.instruction);
            EncodeSigned(s).value
            == [0, 32] + s.devicePublicKey + [0, 64] + s.signature + BigEndian(|inner|, 2) + inner
  {
    hide BigEndian, InstructionCodec.EncodeInstruction, Instruction.WellFormed;
    TwoBytes(32);
    TwoBytes(64);
  }

  /** Accepted bytes re-encode to themselves exactly when no text field inside starts with a byte order mark. */
  lemma ReencodesUnlessBom(b: bytes)
    requires DecodeSigned(b).Ok?
    ensures Instruction.WellFormed(DecodeSigned(b).value.instruction)
    ensures EncodeSigned(DecodeSigned(b).value) == Ok(b)
       <==> !InstructionCodec.HasBomField(InstructionCodec.WireFields(WireInstruction(b)))
  {
    AcceptedIsLayout(b);
    var s, inner := DecodeSigned(b).value, WireInstruction(b);
    InstructionCodec.ReencodesUnlessBom(inner);
    var encoded := InstructionCodec.EncodeInstruction(s.instruction);
    if EncodeSigned(s) == Ok(b) {
      LayoutIsRead(PartsOf(s));
      InstructionCodec.InstructionRoundTrip(s.instruction);
      assert encoded == inner;
    }
  }

  /** No accepted bytes are a strict prefix of other accepted bytes. */
  lemma AcceptedIsPrefixFree(b: bytes, more: bytes)
    requires more != []
    ensures DecodeSigned(b).Err? || DecodeSigned(b + more).Err?
  {
    if DecodeSigned(b).Ok? {
      PartsAreExact();
      ExactExtends(PARTS, b, more, 0);
    }
  }

  // ---------------------------------------------------------------------------------------------
  // The statements themselves
  // ---------------------------------------------------------------------------------------------

  method WriteSigned(s: SignedInstruction) returns (r: Result<bytes, OutOfRange>)
    requires Instruction.WellFormed(s.instruction)
    ensures r == EncodeSigned(s)
  {
    InstructionCodec.InstructionRoundTrip(s.instruction);
    var writer := new CanonicalWriter();
    var written := writer.PutBytes(s.devicePublicKey);
    if written.Fail? {
      return Err(OutOfRange(|s.devicePublicKey|));
    }
    assert writer.Written() == Prefixed(s.devicePublicKey);
    written := writer.PutBytes(s.signature);
    if written.Fail? {
      return Err(OutOfRange(|s.signature|));
    }
    var encoded := InstructionCodec.WriteInstruction(s.instruction);
    written := writer.PutBytes(encoded);
    var b := writer.ToBytes();
    return Ok(b);
  }

  method ReadParts(reader: CanonicalReader) returns (r: Result<Parts, Malformed>)
    modifies reader
    ensures CanonicalReader.Reads(reader.offset, r, GetParts(reader.input, old(reader.offset)))
  {
    var key :- reader.TakeBytes();
    var signature :- reader.TakeBytes();
    var encoded :- reader.TakeBytes();
    return Ok((key, (signature, encoded)));
  }

  method ReadSigned(input: bytes) returns (r: Result<SignedInstruction, Malformed>)
    ensures r == DecodeSigned(input)
  {
    var reader := new CanonicalReader(input);
    var parts :- ReadParts(reader);
    var instruction :- InstructionCodec.ReadInstruction(parts.1.1);
    :- reader.End();
    var s := SignedInstruction(instruction, parts.0, parts.1.0);
    if |s.devicePublicKey| != PUBLIC_KEY_BYTES {
      return Err(Problem("device public key must be 32 bytes"));
    }
    if |s.signature| != SIGNATURE_BYTES {
      return Err(Problem("signature must be 64 bytes"));
    }
    return Ok(s);
  }
}
