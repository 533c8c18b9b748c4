/** packages/protocol/src/envelope.js: what travels through the mesh. */
module EnvelopeCodec {
  import opened Bytes
  import opened Canonical
  import opened Wrappers

  /** "LFFA" */
  const MAGIC: bytes := [0x4C, 0x46, 0x46, 0x41]
  const MAX_ENVELOPE_BYTES: nat := 4096
  const ENC_BYTES: nat := 32
  const TAG_BYTES: nat := 16

  datatype Envelope = Envelope(version: int, suite: int, serverKeyId: int, enc: bytes, ciphertext: bytes)

  type Fields = (bytes, (nat, (nat, (nat, bytes))))

  const MAGIC_FORMAT: Format<bytes> :=
      Where(RawFormat(4), (b: bytes) => b == MAGIC, (b: bytes) => "not a lifafa envelope")
  const NUMBERS_AND_ENC: Format<(nat, (nat, (nat, bytes)))> :=
    Both(UintFormat(1), Both(UintFormat(1), Both(UintFormat(4), BYTES_FORMAT)))
  const HEADER: Format<Fields> := Both(MAGIC_FORMAT, NUMBERS_AND_ENC)

  lemma HeaderIsExact()
    ensures Exact(HEADER)
  {
    RawIsExact(4);
    WhereIsExact(RawFormat(4), (b: bytes) => b == MAGIC, (b: bytes) => "not a lifafa envelope");
    UintIsExact(1);
    UintIsExact(4);
    BytesAreExact();
    BothIsExact(UintFormat(4), BYTES_FORMAT);
    BothIsExact(UintFormat(1), Both(UintFormat(4), BYTES_FORMAT));
    BothIsExact(UintFormat(1), Both(UintFormat(1), Both(UintFormat(4), BYTES_FORMAT)));
    BothIsExact(MAGIC_FORMAT, NUMBERS_AND_ENC);
  }

  function GetHeader(input: bytes, offset: nat): (r: Result<(Fields, nat), Malformed>)
    ensures r.Ok? ==> r.value.1 <= |input|
  {
    HeaderIsExact();
    HEADER.get(input, offset)
  }

  function Layout(version: nat, suite: nat, keyId: nat, enc: bytes): bytes {
    MAGIC + BigEndian(version, 1) + BigEndian(suite, 1) + BigEndian(keyId, 4) + Prefixed(enc)
  }

  /** Err names the first value the writer refuses. */
  function Header(e: Envelope): Result<bytes, OutOfRange> {
    if e.version < 0 || e.version >= 0x100 then Err(OutOfRange(e.version))
    else if e.suite < 0 || e.suite >= 0x100 then Err(OutOfRange(e.suite))
    else if e.serverKeyId < 0 || e.serverKeyId >= 0x1_0000_0000 then Err(OutOfRange(e.serverKeyId))
    else if |e.enc| >= 0x1_0000 then Err(OutOfRange(|e.enc|))
    else Ok(Layout(e.version, e.suite, e.serverKeyId, e.enc))
  }

  function EncodeEnvelope(e: Envelope): Result<bytes, OutOfRange> {
    var header :- Header(e);
    Ok(header + e.ciphertext)
  }

  function CheckLengths(e: Envelope): Result<Envelope, Malformed> {
    if |e.enc| != ENC_BYTES then Err(Problem("enc must be 32 bytes"))
    else if |e.ciphertext| < TAG_BYTES then Err(Problem("ciphertext shorter than a GCM tag"))
    else Ok(e)
  }

  function DecodeEnvelope(wire: bytes): Result<Envelope, Malformed> {
    if |wire| > MAX_ENVELOPE_BYTES then Err(Problem("envelope over 4096 bytes")) else
    var read :- GetHeader(wire, 0);
    var (_, (version, (suite, (keyId, enc)))) := read.0;
    CheckLengths(Envelope(version, suite, keyId, enc, wire[read.1..]))
  }

  lemma HeaderFormat(f: Fields)
    ensures HEADER.fits(f) <==>
            && f.0 == MAGIC && f.1.0 < 0x100 && f.1.1.0 < 0x100
            && f.1.1.1.0 < 0x1_0000_0000 && |f.1.1.1.1| < 0x1_0000
    ensures f.0 == MAGIC ==> HEADER.lay(f) == Layout(f.1.0, f.1.1.0, f.1.1.1.0, f.1.1.1.1)
  {
    Spans();
    var (magic, (version, (suite, (keyId, enc)))) := f;
    assert HEADER.lay(f) == magic + (BigEndian(version, 1)
        + (BigEndian(suite, 1) + (BigEndian(keyId, 4) + Prefixed(enc))));
  }

  lemma HeaderIsRead(e: Envelope, wire: bytes)
    requires EncodeEnvelope(e) == Ok(wire)
    ensures GetHeader(wire, 0) == Ok(((MAGIC, (e.version, (e.suite, (e.serverKeyId, e.enc)))), 12 + |e.enc|))
    ensures wire[12 + |e.enc|..] == e.ciphertext
  {
    var f := (MAGIC, (e.version, (e.suite, (e.serverKeyId, e.enc))));
    HeaderFormat(f);
    HeaderIsExact();
    assert At(wire, 0, HEADER.lay(f));
    assert ReadsBack(HEADER, wire, 0, f);
  }

  lemma ReadHeaderIsLayout(wire: bytes)
    requires GetHeader(wire, 0).Ok?
    ensures var (f, next) := GetHeader(wire, 0).value;
            var (magic, (version, (suite, (keyId, enc)))) := f;
            && version < 0x100 && suite < 0x100 && keyId < 0x1_0000_0000 && |enc| < 0x1_0000
            && next == 12 + |enc| <= |wire| && wire[..next] == Layout(version, suite, keyId, enc)
  {
    var read := GetHeader(wire, 0).value;
    HeaderFormat(read.0);
    HeaderIsExact();
    assert wire[..read.1] == HEADER.lay(read.0);
  }

  /** Accepted bytes are exactly what their envelope encodes to; the authenticated data is their first 44 bytes. */
  lemma AcceptedReencodes(wire: bytes)
    requires DecodeEnvelope(wire).Ok?
    ensures EncodeEnvelope(DecodeEnvelope(wire).value) == Ok(wire)
    ensures Header(DecodeEnvelope(wire).value) == Ok(wire[..44])
    ensures 60 <= |wire| <= 4096
  {
    ReadHeaderIsLayout(wire);
    var next := GetHeader(wire, 0).value.1;
    assert wire == wire[..next] + wire[next..];
  }

  /** An envelope that can be encoded decodes to itself exactly when its lengths are right. */
  lemma EnvelopeRoundTrip(e: Envelope)
    requires EncodeEnvelope(e).Ok?
    ensures var wire := EncodeEnvelope(e).value;
            && |wire| == 12 + |e.enc| + |e.ciphertext|
            && (DecodeEnvelope(wire) == Ok(e) <==> |e.enc| == 32 && |e.ciphertext| >= 16 && |wire| <= 4096)
            && (DecodeEnvelope(wire).Ok? ==> DecodeEnvelope(wire) == Ok(e))
  {
    HeaderIsRead(e, EncodeEnvelope(e).value);
  }

  lemma AcceptedSizes(wire: bytes)
    requires DecodeEnvelope(wire).Ok?
    ensures |DecodeEnvelope(wire).value.enc| == 32
  {
    hide GetHeader;
  }

  /** What the bytes are: "LFFA", version, suite, key id, the encapsulation behind its length, the ciphertext. */
  lemma BytesOfEnvelope(wire: bytes)
    requires DecodeEnvelope(wire).Ok?
    ensures var e := DecodeEnvelope(wire).value;
            && 0 <= e.version < 256 && 0 <= e.suite < 256 && 0 <= e.serverKeyId
            && wire == ['L' as int, 'F' as int, 'F' as int, 'A' as int] + [e.version, e.suite]
                 + BigEndian(e.serverKeyId, 4) + [0, 32] + e.enc + e.ciphertext
  {
    AcceptedSizes(wire);
    hide BigEndian, DecodeEnvelope;
    AcceptedReencodes(wire);
    var e := DecodeEnvelope(wire).value;
    OneByte(e.version);
    OneByte(e.suite);
    TwoBytes(32);
  }

  /** Two wires that carry the same envelope are the same bytes. */
  lemma DecodingIsInjective(a: bytes, b: bytes)
    requires DecodeEnvelope(a).Ok? && DecodeEnvelope(a) == DecodeEnvelope(b)
    ensures a == b
  {
    AcceptedReencodes(a);
    AcceptedReencodes(b);
  }

  lemma ProperEnvelopeRoundTrip(e: Envelope)
    requires 0 <= e.version < 0x100 && 0 <= e.suite < 0x100 && 0 <= e.serverKeyId < 0x1_0000_0000
    requires |e.enc| == 32 && 16 <= |e.ciphertext| <= 4096 - 44
    ensures EncodeEnvelope(e).Ok? && |EncodeEnvelope(e).value| == 44 + |e.ciphertext|
    ensures DecodeEnvelope(EncodeEnvelope(e).value) == Ok(e)
  {
    EnvelopeRoundTrip(e);
  }

  /** The ciphertext is no part of the header. */
  lemma HeaderIgnoresCiphertext(e: Envelope, ciphertext: bytes)
    ensures Header(e.(ciphertext := ciphertext)) == Header(e)
    ensures Header(e).Ok? <==>
            && 0 <= e.version < 0x100 && 0 <= e.suite < 0x100
            && 0 <= e.serverKeyId < 0x1_0000_0000 && |e.enc| < 0x1_0000
  {}

  // ---------------------------------------------------------------------------------------------
  // The statements themselves
  // ---------------------------------------------------------------------------------------------

  method WriteHeader(e: Envelope) returns (r: Result<bytes, OutOfRange>)
    ensures r == Header(e)
  {
    Spans();
    var writer := new CanonicalWriter();
    writer.Raw(MAGIC);
    assert writer.Written() == MAGIC;
    var written := writer.Uint(e.version, 1);
    if written.Fail? {
      return Err(OutOfRange(e.version));
    }
    written := writer.Uint(e.suite, 1);
    if written.Fail? {
      return Err(OutOfRange(e.suite));
    }
    written := writer.Uint(e.serverKeyId, 4);
    if written.Fail? {
      return Err(OutOfRange(e.serverKeyId));
    }
    written := writer.PutBytes(e.enc);
    if written.Fail? {
      return Err(OutOfRange(|e.enc|));
    }
    var b := writer.ToBytes();
    return Ok(b);
  }

  method ReadHeader(reader: CanonicalReader) returns (r: Result<Fields, Malformed>)
    modifies reader
    ensures CanonicalReader.Reads(reader.offset, r, GetHeader(reader.input, old(reader.offset)))
  {
    var magic :- reader.Raw(4);
    if magic != MAGIC {
      return Err(Problem("not a lifafa envelope"));
    }
    var version :- reader.Uint(1);
    var suite :- reader.Uint(1);
    var keyId :- reader.Uint(4);
    var enc :- reader.TakeBytes();
    return Ok((magic, (version, (suite, (keyId, enc)))));
  }

  method ReadEnvelope(wire: bytes) returns (r: Result<Envelope, Malformed>)
    ensures r == DecodeEnvelope(wire)
  {
    if |wire| > MAX_ENVELOPE_BYTES {
      return Err(Problem("envelope over 4096 bytes"));
    }
    var reader := new CanonicalReader(wire);
    var fields :- ReadHeader(reader);
    var (_, (version, (suite, (keyId, enc)))) := fields;
    var ciphertext := reader.Remaining();
    if |enc| != ENC_BYTES {
      return Err(Problem("enc must be 32 bytes"));
    }
    if |ciphertext| < TAG_BYTES {
      return Err(Problem("ciphertext shorter than a GCM tag"));
    }
    return Ok(Envelope(version, suite, keyId, enc, ciphertext));
  }
}
