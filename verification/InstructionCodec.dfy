/** packages/protocol/src/instruction.js: the bytes of a payment instruction. */
module InstructionCodec {
  import opened Bytes
  import opened Canonical
  import opened Instruction
  import opened Wrappers
  import Utf8

  const INSTRUCTION_VERSION: nat := 1

  /** What paymentInstruction throws, in its order. */
  function Validate(p: PaymentInstruction): Option<string> {
    if !IsVpa(p.senderVpa) then Some("senderVpa is not a well-formed VPA")
    else if !IsVpa(p.receiverVpa) then Some("receiverVpa is not a well-formed VPA")
    else if p.senderVpa == p.receiverVpa then Some("a payment must have two different parties")
    else if p.amountPaise > MAX_SAFE || p.amountPaise <= 0 then Some("amountPaise must be a positive integer")
    else if !IsUuidV4(p.nonce) then Some("nonce must be a lowercase random UUID")
    else if p.deviceSequence > MAX_SAFE || p.deviceSequence < 1 then Some("deviceSequence must be a positive integer")
    else if p.signedAt > MAX_SAFE || p.signedAt < 0 then Some("signedAt must be epoch milliseconds")
    else if p.expiresAt > MAX_SAFE || p.expiresAt <= p.signedAt then Some("expiresAt must be after signedAt")
    else None
  }

  // ---------------------------------------------------------------------------------------------
  // The fields on the wire
  // ---------------------------------------------------------------------------------------------

  type Names = (Text, Text)
  type Middle = (nat, Text)
  type Times = (nat, (nat, nat))
  type Fields = (Names, (Middle, Times))

  const NAMES: Format<Names> := Both(TEXT_FORMAT, TEXT_FORMAT)
  const MIDDLE: Format<Middle> := Both(U64_FORMAT, TEXT_FORMAT)
  const TIMES: Format<Times> := Both(U64_FORMAT, Both(U64_FORMAT, U64_FORMAT))
  const FIELDS: Format<Fields> := Both(NAMES, Both(MIDDLE, TIMES))

  lemma FieldsAreExact()
    ensures Exact(FIELDS)
  {
    U64IsExact();
    TextIsExact();
    BothIsExact(TEXT_FORMAT, TEXT_FORMAT);
    BothIsExact(U64_FORMAT, TEXT_FORMAT);
    BothIsExact(U64_FORMAT, U64_FORMAT);
    BothIsExact(U64_FORMAT, Both(U64_FORMAT, U64_FORMAT));
    BothIsExact(MIDDLE, TIMES);
    BothIsExact(NAMES, Both(MIDDLE, TIMES));
  }

  function GetFields(input: bytes, offset: nat): (r: Result<(Fields, nat), Malformed>)
    ensures r.Ok? ==> r.value.1 <= |input|
  {
    FieldsAreExact();
    FIELDS.get(input, offset)
  }

  predicate InRange(f: Fields) {
    var (names, (middle, times)) := f;
    && |names.0.raw| < 0x1_0000 && |names.1.raw| < 0x1_0000 && |middle.1.raw| < 0x1_0000
    && middle.0 <= MAX_SAFE && times.0 <= MAX_SAFE && times.1.0 <= MAX_SAFE && times.1.1 <= MAX_SAFE
  }

  predicate TextsDecode(f: Fields) {
    var (names, (middle, _)) := f;
    Decodes(names.0) && Decodes(names.1) && Decodes(middle.1)
  }

  /** Every field behind the one-byte version, in the order they are written. */
  function Layout(f: Fields): bytes {
    var (names, (middle, times)) := f;
    BigEndian(INSTRUCTION_VERSION, 1)
    + Prefixed(names.0.raw) + Prefixed(names.1.raw)
    + U64Bytes(middle.0) + Prefixed(middle.1.raw)
    + U64Bytes(times.0) + U64Bytes(times.1.0) + U64Bytes(times.1.1)
  }

  lemma FieldsFormat(f: Fields)
    ensures FIELDS.fits(f) <==> InRange(f) && TextsDecode(f)
    ensures Layout(f) == BigEndian(INSTRUCTION_VERSION, 1) + FIELDS.lay(f)
  {
    hide BigEndian, Utf8.Decode, Utf8.Encode;
    var (names, (middle, times)) := f;
    assert FIELDS.lay(f) == NAMES.lay(names) + (MIDDLE.lay(middle) + TIMES.lay(times));
  }

  // ---------------------------------------------------------------------------------------------
  // Encoding and decoding
  // ---------------------------------------------------------------------------------------------

  function FieldsOf(p: PaymentInstruction): Fields
    requires WellFormed(p)
  {
    ((TextOf(p.senderVpa), TextOf(p.receiverVpa)),
        ((p.amountPaise, TextOf(p.nonce)), (p.deviceSequence, (p.signedAt, p.expiresAt))))
  }

  function InstructionOf(f: Fields): PaymentInstruction {
    var (names, (middle, times)) := f;
    PaymentInstruction(names.0.text, names.1.text, middle.0, middle.1.text, times.0, times.1.0, times.1.1)
  }

  function EncodeInstruction(p: PaymentInstruction): bytes
    requires WellFormed(p)
  {
    Layout(FieldsOf(p))
  }

  function DecodeInstruction(input: bytes): Result<PaymentInstruction, Malformed> {
    var version :- GetUint(input, 0, 1);
    if version.0 != INSTRUCTION_VERSION then Err(Problem("unsupported instruction version")) else
    var fields :- GetFields(input, version.1);
    var p := InstructionOf(fields.0);
    match Validate(p)
    case Some(what) => Err(Problem(what))
    case None => if fields.1 != |input| then Err(TrailingBytes(|input| - fields.1)) else Ok(p)
  }

  /** The fields of accepted bytes. */
  function WireFields(b: bytes): Fields
    requires DecodeInstruction(b).Ok?
  {
    GetFields(b, 1).value.0
  }

  /** Accepted bytes are the layout of fields that spell out a well-formed instruction. */
  lemma AcceptedIsLayout(b: bytes)
    requires DecodeInstruction(b).Ok?
    ensures var f := WireFields(b);
            InRange(f) && TextsDecode(f) && b == Layout(f)
            && InstructionOf(f) == DecodeInstruction(b).value && WellFormed(InstructionOf(f))
  {
    hide FIELDS, Layout, InRange, TextsDecode, IsVpa, IsUuidV4, BigEndian;
    var version := GetUint(b, 0, 1).value;
    UintMatches(b, 0, 1, version.0, version.1);
    FieldsAreExact();
    var f := WireFields(b);
    FieldsFormat(f);
    AtParts(b, 0, BigEndian(INSTRUCTION_VERSION, 1), FIELDS.lay(f));
    WholeIsAt(b, Layout(f));
  }

  lemma LayoutIsRead(f: Fields)
    requires InRange(f) && TextsDecode(f)
    ensures GetUint(Layout(f), 0, 1) == Ok((INSTRUCTION_VERSION, 1))
    ensures GetFields(Layout(f), 1) == Ok((f, |Layout(f)|))
  {
    hide Layout, InRange, TextsDecode, BigEndian, FIELDS;
    Spans();
    FieldsFormat(f);
    var b, version := Layout(f), BigEndian(INSTRUCTION_VERSION, 1);
    WholeIsAt(b, b);
    AtParts(b, 0, version, FIELDS.lay(f));
    UintMatches(b, 0, 1, INSTRUCTION_VERSION, 1);
    FieldsAreExact();
    assert ReadsBack(FIELDS, b, 1, f);
  }

  /** And every such layout is accepted. */
  lemma LayoutIsAccepted(f: Fields)
    requires InRange(f) && TextsDecode(f) && WellFormed(InstructionOf(f))
    ensures DecodeInstruction(Layout(f)) == Ok(InstructionOf(f)) && WireFields(Layout(f)) == f
  {
    hide Layout, InRange, TextsDecode, BigEndian, FIELDS, IsVpa, IsUuidV4;
    LayoutIsRead(f);
  }

  lemma VpaIsShortAscii(s: string)
    requires IsVpa(s)
    ensures |Utf8.Encode(s)| == |s| <= 64 && Utf8.Decode(Utf8.Encode(s)) == Some(s)
  {
    var at :| 0 <= at < |s| && IsVpaSplitAt(s, at);
    forall i | 0 <= i < |s|
      ensures s[i] < '\U{80}'
    {
      assert i < at ==> IsNameChar(s[i]);
      assert i > at ==> IsHandleChar(s[i]);
    }
    Utf8.AsciiLength(s);
    Utf8.StringRoundTrip(s);
  }

  lemma UuidIsShortAscii(s: string)
    requires IsUuidV4(s)
    ensures |Utf8.Encode(s)| == 36 && Utf8.Decode(Utf8.Encode(s)) == Some(s)
  {
    Utf8.AsciiLength(s);
    Utf8.StringRoundTrip(s);
  }

  /** Every well-formed instruction is encoded in 75 bytes and its two names, and decodes to itself. */
  lemma InstructionRoundTrip(p: PaymentInstruction)
    requires WellFormed(p)
    ensures DecodeInstruction(EncodeInstruction(p)) == Ok(p)
    ensures |EncodeInstruction(p)| == 75 + |p.senderVpa| + |p.receiverVpa| <= 203
  {
    VpaIsShortAscii(p.senderVpa);
    VpaIsShortAscii(p.receiverVpa);
    UuidIsShortAscii(p.nonce);
    LayoutIsAccepted(FieldsOf(p));
  }

  /** What the bytes are: version 1, then each text behind its u16 length and each number in eight bytes. */
  lemma BytesOfInstruction(p: PaymentInstruction)
    requires WellFormed(p)
    ensures EncodeInstruction(p)
         == [1]
          + BigEndian(|p.senderVpa|, 2) + Utf8.Encode(p.senderVpa)
          + BigEndian(|p.receiverVpa|, 2) + Utf8.Encode(p.receiverVpa)
          + BigEndian(p.amountPaise, 8)
          + BigEndian(36, 2) + Utf8.Encode(p.nonce)
          + BigEndian(p.deviceSequence, 8) + BigEndian(p.signedAt, 8) + BigEndian(p.expiresAt, 8)
  {
    hide IsVpa, IsUuidV4, Utf8.Encode, Utf8.Decode, BigEndian;
    VpaIsShortAscii(p.senderVpa);
    VpaIsShortAscii(p.receiverVpa);
    UuidIsShortAscii(p.nonce);
    OneByte(1);
  }

  /** An instruction can be made, encoded and decoded exactly if it is such a payment. */
  lemma AcceptedPayments(p: PaymentInstruction)
    ensures Validate(p).None? <==> WellFormed(p)
    ensures WellFormed(p) <==>
            && (exists name, handle :: IsNameAtHandle(p.senderVpa, name, handle))
            && (exists name, handle :: IsNameAtHandle(p.receiverVpa, name, handle))
            && p.senderVpa != p.receiverVpa && IsUuidV4(p.nonce)
            && 1 <= p.amountPaise <= 9007199254740991 && 1 <= p.deviceSequence <= 9007199254740991
            && 0 <= p.signedAt < p.expiresAt <= 9007199254740991
    ensures (exists b :: DecodeInstruction(b) == Ok(p)) <==> WellFormed(p)
  {
    hide IsVpa, IsUuidV4, IsNameAtHandle;
    VpaMeans(p.senderVpa);
    VpaMeans(p.receiverVpa);
    if WellFormed(p) {
      hide WellFormed, DecodeInstruction;
      InstructionRoundTrip(p);
    }
    if b :| DecodeInstruction(b) == Ok(p) {
      AcceptedIsLayout(b);
    }
  }

  function LongName(c: char): string {
    seq(48, _ => c) + "@" + seq(15, _ => c)
  }

  /** A payment between two names of the greatest length. */
  function LongestPayment(nonce: string): PaymentInstruction {
    PaymentInstruction(LongName('a'), LongName('b'), 1, nonce, 1, 0, 1)
  }

  lemma LongNameIsVpa(c: char)
    requires 'a' <= c <= 'z'
    ensures IsVpa(LongName(c)) && |LongName(c)| == 64 && LongName(c)[0] == c
  {
    assert IsVpaSplitAt(LongName(c), 48);
  }

  /** Its encoding has the 203 bytes that no other exceeds. */
  lemma LongestIsReached(nonce: string)
    requires IsUuidV4(nonce)
    ensures WellFormed(LongestPayment(nonce)) && |EncodeInstruction(LongestPayment(nonce))| == 203
  {
    LongNameIsVpa('a');
    LongNameIsVpa('b');
    InstructionRoundTrip(LongestPayment(nonce));
  }

  predicate HasBomField(f: Fields) {
    var (names, (middle, _)) := f;
    Utf8.BomLed(names.0.raw) || Utf8.BomLed(names.1.raw) || Utf8.BomLed(middle.1.raw)
  }

  /** Accepted bytes re-encode to themselves exactly when no text field starts with a byte order mark. */
  lemma ReencodesUnlessBom(b: bytes)
    requires DecodeInstruction(b).Ok?
    ensures WellFormed(DecodeInstruction(b).value)
    ensures EncodeInstruction(DecodeInstruction(b).value) == b <==> !HasBomField(WireFields(b))
  {
    AcceptedIsLayout(b);
    var f := WireFields(b);
    TextIsCanonical(f.0.0);
    TextIsCanonical(f.0.1);
    TextIsCanonical(f.1.0.1);
    if !HasBomField(f) {
      assert FieldsOf(InstructionOf(f)) == f;
    } else {
      assert |Layout(FieldsOf(InstructionOf(f)))| < |Layout(f)|;
    }
  }

  /** The fields of an instruction with a byte order mark before the payer's name. */
  function MarkedFields(p: PaymentInstruction): Fields
    requires WellFormed(p)
  {
    var (names, rest) := FieldsOf(p);
    ((Text(Utf8.BOM + names.0.raw, p.senderVpa), names.1), rest)
  }

  /** So every instruction has a second accepted encoding, which does not re-encode to itself. */
  lemma MarkedCopyIsAccepted(p: PaymentInstruction)
    requires WellFormed(p)
    ensures Layout(MarkedFields(p)) != EncodeInstruction(p) && DecodeInstruction(Layout(MarkedFields(p))) == Ok(p)
  {
    hide DecodeInstruction, BigEndian, IsVpa, IsUuidV4, Utf8.Encode, U64Bytes;
    VpaIsShortAscii(p.senderVpa);
    VpaIsShortAscii(p.receiverVpa);
    UuidIsShortAscii(p.nonce);
    var sender := Utf8.BOM + Utf8.Encode(p.senderVpa);
    assert sender[3..] == Utf8.Encode(p.senderVpa);
    Utf8.AllRoundTrip(p.senderVpa);
    LayoutIsAccepted(MarkedFields(p));
    assert |Layout(MarkedFields(p))| == |EncodeInstruction(p)| + 3;
  }

  /** No accepted bytes are a strict prefix of other accepted bytes: extensions and truncations are refused. */
  lemma AcceptedIsPrefixFree(b: bytes, more: bytes)
    requires more != []
    ensures DecodeInstruction(b).Err? || DecodeInstruction(b + more).Err?
  {
    hide FIELDS, Validate;
    if DecodeInstruction(b).Ok? {
      ReadingExtends(b, more, 0, 1);
      FieldsAreExact();
      ExactExtends(FIELDS, b, more, GetUint(b, 0, 1).value.1);
    }
  }

  // ---------------------------------------------------------------------------------------------
  // The statements themselves
  // ---------------------------------------------------------------------------------------------

  lemma FieldsAreWritable(p: PaymentInstruction)
    requires WellFormed(p)
    ensures |Utf8.Encode(p.senderVpa)| < 0x1_0000 && |Utf8.Encode(p.receiverVpa)| < 0x1_0000
            && |Utf8.Encode(p.nonce)| < 0x1_0000
    ensures INSTRUCTION_VERSION < Span(1)
  {
    VpaIsShortAscii(p.senderVpa);
    VpaIsShortAscii(p.receiverVpa);
    UuidIsShortAscii(p.nonce);
    Spans();
  }

  method WriteNamesAndAmount(writer: CanonicalWriter, sender: string, receiver: string, amount: int)
    requires |Utf8.Encode(sender)| < 0x1_0000 && |Utf8.Encode(receiver)| < 0x1_0000 && 0 <= amount <= MAX_SAFE
    modifies writer
    ensures writer.Written()
         == old(writer.Written()) + Prefixed(Utf8.Encode(sender)) + Prefixed(Utf8.Encode(receiver)) + U64Bytes(amount)
  {
    var ok := writer.PutString(sender);
    ok := writer.PutString(receiver);
    ok := writer.U64(amount);
  }

  method WriteNonceAndTimes(writer: CanonicalWriter, nonce: string, sequence: int, signedAt: int, expiresAt: int)
    requires |Utf8.Encode(nonce)| < 0x1_0000 && 0 <= sequence <= MAX_SAFE && 0 <= signedAt <= MAX_SAFE
             && 0 <= expiresAt <= MAX_SAFE
    modifies writer
    ensures writer.Written()
         == old(writer.Written()) + Prefixed(Utf8.Encode(nonce)) + U64Bytes(sequence) + U64Bytes(signedAt)
             + U64Bytes(expiresAt)
  {
    var ok := writer.PutString(nonce);
    ok := writer.U64(sequence);
    ok := writer.U64(signedAt);
    ok := writer.U64(expiresAt);
  }

  /** The writer never refuses a field of a well-formed instruction. */
  method WriteInstruction(p: PaymentInstruction) returns (b: bytes)
    requires WellFormed(p)
    ensures b == EncodeInstruction(p)
  {
    FieldsAreWritable(p);
    var writer := new CanonicalWriter();
    var ok := writer.Uint(INSTRUCTION_VERSION, 1);
    assert writer.Written() == BigEndian(INSTRUCTION_VERSION, 1);
    WriteNamesAndAmount(writer, p.senderVpa, p.receiverVpa, p.amountPaise);
    WriteNonceAndTimes(writer, p.nonce, p.deviceSequence, p.signedAt, p.expiresAt);
    b := writer.ToBytes();
    assert b == Layout(FieldsOf(p));
  }

  method ReadNames(reader: CanonicalReader) returns (r: Result<Names, Malformed>)
    modifies reader
    ensures CanonicalReader.Reads(reader.offset, r, NAMES.get(reader.input, old(reader.offset)))
  {
    var sender :- reader.TakeText();
    var receiver :- reader.TakeText();
    return Ok((sender, receiver));
  }

  method ReadMiddle(reader: CanonicalReader) returns (r: Result<Middle, Malformed>)
    modifies reader
    ensures CanonicalReader.Reads(reader.offset, r, MIDDLE.get(reader.input, old(reader.offset)))
  {
    var amount :- reader.U64();
    var nonce :- reader.TakeText();
    return Ok((amount, nonce));
  }

  method ReadTimes(reader: CanonicalReader) returns (r: Result<Times, Malformed>)
    modifies reader
    ensures CanonicalReader.Reads(reader.offset, r, TIMES.get(reader.input, old(reader.offset)))
  {
    var sequence :- reader.U64();
    var signedAt :- reader.U64();
    var expiresAt :- reader.U64();
    return Ok((sequence, (signedAt, expiresAt)));
  }

  method ReadFields(reader: CanonicalReader) returns (r: Result<Fields, Malformed>)
    modifies reader
    ensures CanonicalReader.Reads(reader.offset, r, GetFields(reader.input, old(reader.offset)))
  {
    var names :- ReadNames(reader);
    var middle :- ReadMiddle(reader);
    var times :- ReadTimes(reader);
    return Ok((names, (middle, times)));
  }

  method ReadInstruction(input: bytes) returns (r: Result<PaymentInstruction, Malformed>)
    ensures r == DecodeInstruction(input)
  {
    FieldsAreExact();
    var reader := new CanonicalReader(input);
    var version :- reader.Uint(1);
    if version != INSTRUCTION_VERSION {
      return Err(Problem("unsupported instruction version"));
    }
    var fields :- ReadFields(reader);
    var p := InstructionOf(fields);
    var problem := Validate(p);
    if problem.Some? {
      return Err(Problem(problem.value));
    }
    :- reader.End();
    return Ok(p);
  }
}
