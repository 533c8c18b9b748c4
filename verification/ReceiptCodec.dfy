/** packages/protocol/src/receipt.js: the bytes of the service's answer. */
module ReceiptCodec {
  import opened Bytes
  import opened Canonical
  import opened Wrappers
  import Utf8

  datatype ReceiptOutcome = Settled | Rejected

  datatype Receipt = Receipt(
    idempotencyKey: string,
    outcome: ReceiptOutcome,
    reason: string,
    journalEntryId: int,
    decidedAt: int)

  type Fields = ((Text, nat), (Text, (nat, nat)))

  predicate IsOutcomeCode(head: (Text, nat)) {
    head.1 == 1 || head.1 == 2
  }

  const HEAD: Format<(Text, nat)> :=
    Where(Both(TEXT_FORMAT, UintFormat(1)), IsOutcomeCode, (head: (Text, nat)) => "unknown receipt outcome")
  const TAIL: Format<(Text, (nat, nat))> := Both(TEXT_FORMAT, Both(U64_FORMAT, U64_FORMAT))
  const FIELDS: Format<Fields> := Both(HEAD, TAIL)

  lemma FieldsAreExact()
    ensures Exact(HEAD) && Exact(FIELDS)
  {
    TextIsExact();
    U64IsExact();
    UintIsExact(1);
    BothIsExact(TEXT_FORMAT, UintFormat(1));
    WhereIsExact(Both(TEXT_FORMAT, UintFormat(1)), IsOutcomeCode, (head: (Text, nat)) => "unknown receipt outcome");
    BothIsExact(U64_FORMAT, U64_FORMAT);
    BothIsExact(TEXT_FORMAT, Both(U64_FORMAT, U64_FORMAT));
    BothIsExact(HEAD, TAIL);
  }

  function GetFields(input: bytes, offset: nat): (r: Result<(Fields, nat), Malformed>)
    ensures r.Ok? ==> r.value.1 <= |input| && IsOutcomeCode(r.value.0.0)
  {
    FieldsAreExact();
    FIELDS.get(input, offset)
  }

  function Layout(f: Fields): bytes {
    var ((key, code), (reason, (entry, decidedAt))) := f;
    Prefixed(key.raw) + BigEndian(code, 1) + Prefixed(reason.raw) + U64Bytes(entry) + U64Bytes(decidedAt)
  }

  predicate Fits(f: Fields) {
    var ((key, code), (reason, (entry, decidedAt))) := f;
    && |key.raw| < 0x1_0000 && Decodes(key) && (code == 1 || code == 2)
    && |reason.raw| < 0x1_0000 && Decodes(reason) && entry <= MAX_SAFE && decidedAt <= MAX_SAFE
  }

  lemma FieldsFormat(f: Fields)
    ensures FIELDS.fits(f) <==> Fits(f)
    ensures FIELDS.lay(f) == Layout(f)
  {
    Spans();
    assert FIELDS.lay(f) == HEAD.lay(f.0) + TAIL.lay(f.1);
  }

  function CodeOf(outcome: ReceiptOutcome): nat {
    if outcome == Settled then 1 else 2
  }

  function FieldsOf(r: Receipt): Fields
    requires r.journalEntryId >= 0 && r.decidedAt >= 0
  {
    ((TextOf(r.idempotencyKey), CodeOf(r.outcome)), (TextOf(r.reason), (r.journalEntryId, r.decidedAt)))
  }

  function ReceiptOf(f: Fields): Receipt {
    var ((key, code), (reason, (entry, decidedAt))) := f;
    Receipt(key.text, if code == 1 then Settled else Rejected, reason.text, entry, decidedAt)
  }

  /** Err names the first value the writer refuses. */
  function EncodeReceipt(r: Receipt): Result<bytes, OutOfRange> {
    var key, reason := Utf8.Encode(r.idempotencyKey), Utf8.Encode(r.reason);
    if |key| >= 0x1_0000 then Err(OutOfRange(|key|))
    else if |reason| >= 0x1_0000 then Err(OutOfRange(|reason|))
    else if r.journalEntryId < 0 || r.journalEntryId > MAX_SAFE then Err(OutOfRange(r.journalEntryId))
    else if r.decidedAt < 0 || r.decidedAt > MAX_SAFE then Err(OutOfRange(r.decidedAt))
    else Ok(Layout(FieldsOf(r)))
  }

  function DecodeReceipt(input: bytes): Result<Receipt, Malformed> {
    var read :- GetFields(input, 0);
    if read.1 != |input| then Err(TrailingBytes(|input| - read.1)) else Ok(ReceiptOf(read.0))
  }

  function WireFields(b: bytes): Fields
    requires DecodeReceipt(b).Ok?
  {
    GetFields(b, 0).value.0
  }

  lemma AcceptedIsLayout(b: bytes)
    requires DecodeReceipt(b).Ok?
    ensures Fits(WireFields(b)) && b == Layout(WireFields(b)) && DecodeReceipt(b).value == ReceiptOf(WireFields(b))
  {
    FieldsAreExact();
    var f := WireFields(b);
    FieldsFormat(f);
    WholeIsAt(b, Layout(f));
  }

  lemma LayoutIsAccepted(f: Fields)
    requires Fits(f)
    ensures DecodeReceipt(Layout(f)) == Ok(ReceiptOf(f)) && WireFields(Layout(f)) == f
  {
    FieldsAreExact();
    FieldsFormat(f);
    WholeIsAt(Layout(f), Layout(f));
    assert ReadsBack(FIELDS, Layout(f), 0, f);
  }

  predicate MarkLed(s: string) {
    s != "" && s[0] == '\U{FEFF}'
  }

  /** What is left of a string once its bytes have been through the decoder. */
  function Unmarked(s: string): string {
    if MarkLed(s) then s[1..] else s
  }

  function Sent(s: string): Text {
    Text(Utf8.Encode(s), Unmarked(s))
  }

  /** Every receipt that can be encoded comes back without leading marks, so unchanged exactly when it had none. */
  lemma ReceiptRoundTrip(r: Receipt)
    requires EncodeReceipt(r).Ok?
    ensures DecodeReceipt(EncodeReceipt(r).value)
         == Ok(r.(idempotencyKey := Unmarked(r.idempotencyKey), reason := Unmarked(r.reason)))
    ensures DecodeReceipt(EncodeReceipt(r).value) == Ok(r) <==> !MarkLed(r.idempotencyKey) && !MarkLed(r.reason)
  {
    Utf8.StringRoundTrip(r.idempotencyKey);
    Utf8.StringRoundTrip(r.reason);
    var f := ((Sent(r.idempotencyKey), CodeOf(r.outcome)), (Sent(r.reason), (r.journalEntryId, r.decidedAt)));
    assert Layout(f) == EncodeReceipt(r).value;
    LayoutIsAccepted(f);
    assert MarkLed(r.idempotencyKey) ==> |Unmarked(r.idempotencyKey)| < |r.idempotencyKey|;
    assert MarkLed(r.reason) ==> |Unmarked(r.reason)| < |r.reason|;
  }

  /** What the bytes are: key, outcome code, reason, entry and time, texts behind their u16 length. */
  lemma BytesOfReceipt(r: Receipt)
    requires EncodeReceipt(r).Ok? && r.journalEntryId >= 0 && r.decidedAt >= 0
    ensures EncodeReceipt(r).value
         == BigEndian(|Utf8.Encode(r.idempotencyKey)|, 2) + Utf8.Encode(r.idempotencyKey)
          + [if r.outcome == Settled then 1 else 2]
          + BigEndian(|Utf8.Encode(r.reason)|, 2) + Utf8.Encode(r.reason)
          + BigEndian(r.journalEntryId, 8) + BigEndian(r.decidedAt, 8)
  {
    hide BigEndian, Utf8.Encode, Utf8.Decode;
    OneByte(1);
    OneByte(2);
  }

  predicate HasBomField(f: Fields) {
    Utf8.BomLed(f.0.0.raw) || Utf8.BomLed(f.1.0.raw)
  }

  /** Accepted bytes re-encode to themselves exactly when neither text starts with a byte order mark. */
  lemma ReencodesUnlessBom(b: bytes)
    requires DecodeReceipt(b).Ok?
    ensures EncodeReceipt(DecodeReceipt(b).value) == Ok(b) <==> !HasBomField(WireFields(b))
  {
    AcceptedIsLayout(b);
    var f := WireFields(b);
    TextIsCanonical(f.0.0);
    TextIsCanonical(f.1.0);
    if !HasBomField(f) {
      assert FieldsOf(ReceiptOf(f)) == f;
    } else {
      assert |Layout(FieldsOf(ReceiptOf(f)))| < |Layout(f)|;
    }
  }

  /** No accepted bytes are a strict prefix of other accepted bytes. */
  lemma AcceptedIsPrefixFree(b: bytes, more: bytes)
    requires more != []
    ensures DecodeReceipt(b).Err? || DecodeReceipt(b + more).Err?
  {
    if DecodeReceipt(b).Ok? {
      FieldsAreExact();
      ExactExtends(FIELDS, b, more, 0);
    }
  }

  // ---------------------------------------------------------------------------------------------
  // The statements themselves
  // ---------------------------------------------------------------------------------------------

  method WriteReceipt(r: Receipt) returns (out: Result<bytes, OutOfRange>)
    ensures out == EncodeReceipt(r)
  {
    Spans();
    var writer := new CanonicalWriter();
    var written := writer.PutString(r.idempotencyKey);
    if written.Fail? {
      return Err(OutOfRange(|Utf8.Encode(r.idempotencyKey)|));
    }
    assert writer.Written() == Prefixed(Utf8.Encode(r.idempotencyKey));
    written := writer.Uint(CodeOf(r.outcome), 1);
    written := writer.PutString(r.reason);
    if written.Fail? {
      return Err(OutOfRange(|Utf8.Encode(r.reason)|));
    }
    written := writer.U64(r.journalEntryId);
    if written.Fail? {
      return Err(OutOfRange(r.journalEntryId));
    }
    written := writer.U64(r.decidedAt);
    if written.Fail? {
      return Err(OutOfRange(r.decidedAt));
    }
    var b := writer.ToBytes();
    return Ok(b);
  }

  method ReadHead(reader: CanonicalReader) returns (r: Result<(Text, nat), Malformed>)
    modifies reader
    ensures CanonicalReader.Reads(reader.offset, r, HEAD.get(reader.input, old(reader.offset)))
  {
    var key :- reader.TakeText();
    var code :- reader.Uint(1);
    if code != 1 && code != 2 {
      return Err(Problem("unknown receipt outcome"));
    }
    return Ok((key, code));
  }

  method ReadTail(reader: CanonicalReader) returns (r: Result<(Text, (nat, nat)), Malformed>)
    modifies reader
    ensures CanonicalReader.Reads(reader.offset, r, TAIL.get(reader.input, old(reader.offset)))
  {
    var reason :- reader.TakeText();
    var entry :- reader.U64();
    var decidedAt :- reader.U64();
    return Ok((reason, (entry, decidedAt)));
  }

  method ReadReceipt(input: bytes) returns (r: Result<Receipt, Malformed>)
    ensures r == DecodeReceipt(input)
  {
    FieldsAreExact();
    var reader := new CanonicalReader(input);
    var head :- ReadHead(reader);
    var tail :- ReadTail(reader);
    assert GetFields(input, 0) == Ok(((head, tail), reader.offset));
    :- reader.End();
    return Ok(ReceiptOf((head, tail)));
  }
}
