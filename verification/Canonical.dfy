/**
 * packages/protocol/src/canonical.js: fixed field order, big-endian integers, length-prefixed bytes,
 * one encoding for each value.
 */
module Canonical {
  import opened Bytes
  import opened Wrappers
  import Utf8

  datatype Malformed =
    | Truncated(needed: nat, offset: nat)
    | UnsafeInteger
    | NotUtf8
    | TrailingBytes(count: nat)
    | Problem(what: string)

  /** A value the writer refuses: RangeError. */
  datatype OutOfRange = OutOfRange(value: int)

  // ---------------------------------------------------------------------------------------------
  // Reading, as functions of the input and the offset
  // ---------------------------------------------------------------------------------------------

  function Take(input: bytes, offset: nat, count: nat): (r: Result<(bytes, nat), Malformed>)
    ensures r.Ok? ==> offset <= r.value.1 <= |input|
  {
    if offset + count > |input| then Err(Truncated(count, offset))
    else Ok((input[offset..offset + count], offset + count))
  }

  /** A big-endian unsigned integer of n bytes. */
  function GetUint(input: bytes, offset: nat, n: nat): (r: Result<(nat, nat), Malformed>)
    ensures r.Ok? ==> offset <= r.value.1 <= |input|
  {
    var taken :- Take(input, offset, n);
    Ok((FromBigEndian(taken.0), taken.1))
  }

  /** A safe integer, as eight bytes. */
  function GetU64(input: bytes, offset: nat): (r: Result<(nat, nat), Malformed>)
    ensures r.Ok? ==> offset <= r.value.1 <= |input|
  {
    var read :- GetUint(input, offset, 8);
    if read.0 > MAX_SAFE then Err(UnsafeInteger) else Ok(read)
  }

  /** Bytes behind their length. */
  function GetBytes(input: bytes, offset: nat): (r: Result<(bytes, nat), Malformed>)
    ensures r.Ok? ==> offset <= r.value.1 <= |input|
  {
    var length :- GetUint(input, offset, 2);
    Take(input, length.1, length.0)
  }

  function GetString(input: bytes, offset: nat): (r: Result<(string, nat), Malformed>)
    ensures r.Ok? ==> offset <= r.value.1 <= |input|
  {
    var raw :- GetBytes(input, offset);
    match Utf8.Decode(raw.0)
    case Some(s) => Ok((s, raw.1))
    case None => Err(NotUtf8)
  }

  /** A text field: the bytes on the wire and what they decode to. */
  datatype Text = Text(raw: bytes, text: string)

  predicate Decodes(t: Text) {
    Utf8.Decode(t.raw) == Some(t.text)
  }

  function TextOf(s: string): Text {
    Text(Utf8.Encode(s), s)
  }

  function GetText(input: bytes, offset: nat): (r: Result<(Text, nat), Malformed>)
    ensures r.Ok? ==> offset <= r.value.1 <= |input|
    ensures GetString(input, offset) == if r.Ok? then Ok((r.value.0.text, r.value.1)) else Err(r.error)
  {
    var raw :- GetBytes(input, offset);
    match Utf8.Decode(raw.0)
    case Some(s) => Ok((Text(raw.0, s), raw.1))
    case None => Err(NotUtf8)
  }

  // ---------------------------------------------------------------------------------------------
  // Each reader accepts exactly what the matching writer lays down
  // ---------------------------------------------------------------------------------------------

  /** The part stands in the input at this offset. */
  predicate At(input: bytes, offset: nat, part: bytes) {
    offset + |part| <= |input| && input[offset..offset + |part|] == part
  }

  function U64Bytes(v: nat): bytes {
    BigEndian(v, 8)
  }

  function Prefixed(b: bytes): bytes {
    BigEndian(|b|, 2) + b
  }

  lemma AtParts(input: bytes, offset: nat, a: bytes, b: bytes)
    ensures At(input, offset, a + b) <==> At(input, offset, a) && At(input, offset + |a|, b)
  {
    if offset + |a| + |b| <= |input| {
      assert input[offset..offset + |a| + |b|] == input[offset..offset + |a|] + input[offset + |a|..offset + |a| + |b|];
      if At(input, offset, a + b) {
        assert (a + b)[..|a|] == a && (a + b)[|a|..] == b;
      }
    }
  }

  lemma UintIsRead(input: bytes, offset: nat, n: nat, v: nat)
    requires v < Span(n) && At(input, offset, BigEndian(v, n))
    ensures GetUint(input, offset, n) == Ok((v, offset + n))
  {
    BigEndianRoundTrip(v, n);
  }

  lemma ReadUintIsThere(input: bytes, offset: nat, n: nat)
    requires GetUint(input, offset, n).Ok?
    ensures var (v, next) := GetUint(input, offset, n).value;
            v < Span(n) && At(input, offset, BigEndian(v, n)) && next == offset + n
  {
    BigEndianIsCanonical(input[offset..offset + n]);
  }

  lemma UintMatches(input: bytes, offset: nat, n: nat, v: nat, next: nat)
    ensures GetUint(input, offset, n) == Ok((v, next))
            <==> v < Span(n) && At(input, offset, BigEndian(v, n)) && next == offset + n
  {
    if GetUint(input, offset, n).Ok? {
      ReadUintIsThere(input, offset, n);
    }
    if v < Span(n) && At(input, offset, BigEndian(v, n)) {
      UintIsRead(input, offset, n, v);
    }
  }

  lemma U64Matches(input: bytes, offset: nat, v: nat, next: nat)
    ensures GetU64(input, offset) == Ok((v, next))
            <==> v <= MAX_SAFE && At(input, offset, U64Bytes(v)) && next == offset + 8
  {
    Spans();
    UintMatches(input, offset, 8, v, next);
    if GetUint(input, offset, 8).Ok? {
      var read := GetUint(input, offset, 8).value;
      UintMatches(input, offset, 8, read.0, read.1);
    }
  }

  lemma BytesMatch(input: bytes, offset: nat, b: bytes, next: nat)
    ensures GetBytes(input, offset) == Ok((b, next)) <==>
            |b| < 0x1_0000 && At(input, offset, Prefixed(b)) && next == offset + |Prefixed(b)|
  {
    Spans();
    AtParts(input, offset, BigEndian(|b|, 2), b);
    UintMatches(input, offset, 2, |b|, offset + 2);
    if GetUint(input, offset, 2).Ok? {
      var read := GetUint(input, offset, 2).value;
      UintMatches(input, offset, 2, read.0, read.1);
    }
  }

  lemma TextIsCanonical(t: Text)
    requires Decodes(t)
    ensures t == TextOf(t.text) <==> !Utf8.BomLed(t.raw)
    ensures |TextOf(t.text).raw| <= |t.raw|
    ensures Utf8.BomLed(t.raw) ==> |TextOf(t.text).raw| < |t.raw|
  {
    Utf8.DecodingIsCanonical(t.raw);
  }

  lemma TextMatches(input: bytes, offset: nat, t: Text, next: nat)
    ensures GetText(input, offset) == Ok((t, next)) <==>
            && |t.raw| < 0x1_0000 && Utf8.Decode(t.raw) == Some(t.text)
            && At(input, offset, Prefixed(t.raw)) && next == offset + |Prefixed(t.raw)|
  {
    BytesMatch(input, offset, t.raw, next);
  }

  lemma AtExtends(input: bytes, more: bytes, offset: nat, part: bytes)
    requires At(input, offset, part)
    ensures At(input + more, offset, part)
  {
    assert (input + more)[offset..offset + |part|] == input[offset..offset + |part|];
  }

  lemma WholeIsAt(b: bytes, whole: bytes)
    ensures b == whole <==> At(b, 0, whole) && |b| == |whole|
  {
    if |b| == |whole| {
      assert b[0..|whole|] == b;
    }
  }

  /** Longer input reads the same. */
  lemma TakeExtends(input: bytes, more: bytes, offset: nat, count: nat)
    requires Take(input, offset, count).Ok?
    ensures Take(input + more, offset, count) == Take(input, offset, count)
  {
    assert (input + more)[offset..offset + count] == input[offset..offset + count];
  }

  lemma ReadingExtends(input: bytes, more: bytes, offset: nat, n: nat)
    ensures GetUint(input, offset, n).Ok? ==> GetUint(input + more, offset, n) == GetUint(input, offset, n)
    ensures GetU64(input, offset).Ok? ==> GetU64(input + more, offset) == GetU64(input, offset)
    ensures GetBytes(input, offset).Ok? ==> GetBytes(input + more, offset) == GetBytes(input, offset)
    ensures GetText(input, offset).Ok? ==> GetText(input + more, offset) == GetText(input, offset)
  {
    if GetUint(input, offset, n).Ok? {
      TakeExtends(input, more, offset, n);
    }
    if GetUint(input, offset, 8).Ok? {
      TakeExtends(input, more, offset, 8);
    }
    if GetUint(input, offset, 2).Ok? {
      TakeExtends(input, more, offset, 2);
      var length := GetUint(input, offset, 2).value;
      if Take(input, length.1, length.0).Ok? {
        TakeExtends(input, more, length.1, length.0);
      }
    }
  }

  // ---------------------------------------------------------------------------------------------
  // Formats: a reader, the values it can return, and the bytes it returns each for
  // ---------------------------------------------------------------------------------------------

  datatype Format<!T> = Format(
    get: (bytes, nat) -> Result<(T, nat), Malformed>,
    fits: T -> bool,
    lay: T -> bytes)

  /** Whatever is read is the layout of a fitting value. */
  ghost predicate ReadsOnlyLayouts<T(!new)>(f: Format<T>) {
    forall input: bytes, o: nat ::
      f.get(input, o).Ok? ==>
        var (v, next) := f.get(input, o).value;
        f.fits(v) && At(input, o, f.lay(v)) && next == o + |f.lay(v)|
  }

  /** Wherever the layout of this value stands, it is read back. */
  ghost predicate ReadsBack<T(!new)>(f: Format<T>, input: bytes, o: nat, v: T) {
    f.fits(v) && At(input, o, f.lay(v)) ==> f.get(input, o) == Ok((v, o + |f.lay(v)|))
  }

  ghost predicate ReadsEveryLayout<T(!new)>(f: Format<T>) {
    forall input: bytes, o: nat, v: T :: ReadsBack(f, input, o, v)
  }

  /** The reader accepts exactly the layouts of the fitting values, wherever they stand. */
  ghost predicate Exact<T(!new)>(f: Format<T>) {
    ReadsOnlyLayouts(f) && ReadsEveryLayout(f)
  }

  /** One field after the other. */
  function Both<A, B>(f: Format<A>, g: Format<B>): Format<(A, B)> {
    Format(
      (input: bytes, o: nat) =>
        match f.get(input, o) {
          case Err(e) => Err(e)
          case Ok((a, mid)) =>
            match g.get(input, mid)
            case Err(e) => Err(e)
            case Ok((b, next)) => Ok(((a, b), next))
        },
      (v: (A, B)) => f.fits(v.0) && g.fits(v.1),
      (v: (A, B)) => f.lay(v.0) + g.lay(v.1))
  }

  lemma BothReadOnlyLayouts<A(!new), B(!new)>(f: Format<A>, g: Format<B>)
    requires ReadsOnlyLayouts(f) && ReadsOnlyLayouts(g)
    ensures ReadsOnlyLayouts(Both(f, g))
  {
    forall input: bytes, o: nat | Both(f, g).get(input, o).Ok?
      ensures var ((a, b), next) := Both(f, g).get(input, o).value;
              f.fits(a) && g.fits(b) && At(input, o, f.lay(a) + g.lay(b)) && next == o + |f.lay(a) + g.lay(b)|
    {
      var (a, b) := Both(f, g).get(input, o).value.0;
      AtParts(input, o, f.lay(a), g.lay(b));
    }
  }

  lemma BothReadEveryLayout<A(!new), B(!new)>(f: Format<A>, g: Format<B>)
    requires ReadsEveryLayout(f) && ReadsEveryLayout(g)
    ensures ReadsEveryLayout(Both(f, g))
  {
    forall input: bytes, o: nat, v: (A, B)
      ensures ReadsBack(Both(f, g), input, o, v)
    {
      AtParts(input, o, f.lay(v.0), g.lay(v.1));
      assert ReadsBack(f, input, o, v.0) && ReadsBack(g, input, o + |f.lay(v.0)|, v.1);
    }
  }

  lemma BothIsExact<A(!new), B(!new)>(f: Format<A>, g: Format<B>)
    requires Exact(f) && Exact(g)
    ensures Exact(Both(f, g))
  {
    BothReadOnlyLayouts(f, g);
    BothReadEveryLayout(f, g);
  }

  /** A field that must also pass a check, made as soon as it is read. */
  function Where<T>(f: Format<T>, ok: T -> bool, complaint: T -> string): Format<T> {
    Format(
      (input: bytes, o: nat) =>
        match f.get(input, o) {
          case Err(e) => Err(e)
          case Ok((v, next)) => if ok(v) then Ok((v, next)) else Err(Problem(complaint(v)))
        },
      (v: T) => f.fits(v) && ok(v),
      f.lay)
  }

  lemma WhereIsExact<T(!new)>(f: Format<T>, ok: T -> bool, complaint: T -> string)
    requires Exact(f)
    ensures Exact(Where(f, ok, complaint))
  {
    forall input: bytes, o: nat, v: T
      ensures ReadsBack(Where(f, ok, complaint), input, o, v)
    {
      assert ReadsBack(f, input, o, v);
    }
  }

  /** Two layouts of fitting values, one a prefix of the other, are one layout of one value. */
  lemma ExactIsPrefixFree<T(!new)>(f: Format<T>, v: T, w: T, rest: bytes)
    requires Exact(f) && f.fits(v) && f.fits(w) && f.lay(v) + rest == f.lay(w)
    ensures v == w && rest == []
  {
    WholeIsAt(f.lay(w), f.lay(w));
    AtParts(f.lay(w), 0, f.lay(v), rest);
    assert ReadsBack(f, f.lay(w), 0, v) && ReadsBack(f, f.lay(w), 0, w);
  }

  /** Longer input reads the same. */
  lemma ExactExtends<T(!new)>(f: Format<T>, input: bytes, more: bytes, o: nat)
    requires Exact(f) && f.get(input, o).Ok?
    ensures f.get(input + more, o) == f.get(input, o)
  {
    var v := f.get(input, o).value.0;
    AtExtends(input, more, o, f.lay(v));
    assert ReadsBack(f, input + more, o, v);
  }

  const U64_FORMAT: Format<nat> := Format(GetU64, (v: nat) => v <= MAX_SAFE, U64Bytes)
  const BYTES_FORMAT: Format<bytes> := Format(GetBytes, (b: bytes) => |b| < 0x1_0000, Prefixed)
  const TEXT_FORMAT: Format<Text> :=
    Format(GetText, (t: Text) => |t.raw| < 0x1_0000 && Decodes(t), (t: Text) => Prefixed(t.raw))

  /** A number of bytes the reader already knows. */
  function RawFormat(n: nat): Format<bytes> {
    Format((input: bytes, o: nat) => Take(input, o, n), (b: bytes) => |b| == n, (b: bytes) => b)
  }

  lemma RawIsExact(n: nat)
    ensures Exact(RawFormat(n))
  {}

  function UintFormat(n: nat): Format<nat> {
    Format((input: bytes, o: nat) => GetUint(input, o, n), (v: nat) => v < Span(n), (v: nat) => BigEndian(v, n))
  }

  lemma UintIsExact(n: nat)
    ensures Exact(UintFormat(n))
  {
    forall input: bytes, o: nat, v: nat, next: nat
      ensures GetUint(input, o, n) == Ok((v, next)) <==> v < Span(n) && At(input, o, BigEndian(v, n)) && next == o + n
    {
      UintMatches(input, o, n, v, next);
    }
  }

  lemma U64IsExact()
    ensures Exact(U64_FORMAT)
  {
    forall input: bytes, o: nat, v: nat, next: nat
      ensures GetU64(input, o) == Ok((v, next)) <==> v <= MAX_SAFE && At(input, o, U64Bytes(v)) && next == o + 8
    {
      U64Matches(input, o, v, next);
    }
  }

  lemma BytesAreExact()
    ensures Exact(BYTES_FORMAT)
  {
    forall input: bytes, o: nat, b: bytes, next: nat
      ensures GetBytes(input, o) == Ok((b, next)) <==>
              |b| < 0x1_0000 && At(input, o, Prefixed(b)) && next == o + |Prefixed(b)|
    {
      BytesMatch(input, o, b, next);
    }
  }

  lemma TextIsExact()
    ensures Exact(TEXT_FORMAT)
  {
    forall input: bytes, o: nat, t: Text, next: nat
      ensures GetText(input, o) == Ok((t, next)) <==>
              && |t.raw| < 0x1_0000 && Utf8.Decode(t.raw) == Some(t.text)
              && At(input, o, Prefixed(t.raw)) && next == o + |Prefixed(t.raw)|
    {
      TextMatches(input, o, t, next);
    }
  }

  // ---------------------------------------------------------------------------------------------
  // The stateful writer and reader
  // ---------------------------------------------------------------------------------------------

  class CanonicalWriter {
    var parts: seq<bytes>

    constructor ()
      ensures parts == []
    {
      parts := [];
    }

    function Written(): bytes
      reads this
    {
      Flatten(parts)
    }

    method Raw(value: bytes)
      modifies this
      ensures Written() == old(Written()) + value
    {
      parts := parts + [value];
      assert parts[..|parts| - 1] == old(parts);
    }

    /** u8, u16 and u32: an integer of n bytes. */
    method Uint(value: int, n: nat) returns (r: Outcome<OutOfRange>)
      modifies this
      ensures r.Pass? <==> 0 <= value < Span(n)
      ensures r.Pass? ==> Written() == old(Written()) + BigEndian(value, n)
      ensures r.Fail? ==> parts == old(parts)
    {
      if value < 0 || value >= Span(n) {
        return Fail(OutOfRange(value));
      }
      Raw(BigEndian(value, n));
      return Pass;
    }

    method U64(value: int) returns (r: Outcome<OutOfRange>)
      modifies this
      ensures r.Pass? <==> 0 <= value <= MAX_SAFE
      ensures r.Pass? ==> Written() == old(Written()) + U64Bytes(value)
      ensures r.Fail? ==> parts == old(parts)
    {
      if value < 0 || value > MAX_SAFE {
        return Fail(OutOfRange(value));
      }
      Raw(U64Bytes(value));
      return Pass;
    }

    method PutBytes(value: bytes) returns (r: Outcome<OutOfRange>)
      modifies this
      ensures r.Pass? <==> |value| < 0x1_0000
      ensures r.Pass? ==> Written() == old(Written()) + Prefixed(value)
      ensures r.Fail? ==> parts == old(parts)
    {
      Spans();
      r := Uint(|value|, 2);
      if r.Pass? {
        Raw(value);
      }
    }

    method PutString(value: string) returns (r: Outcome<OutOfRange>)
      modifies this
      ensures r.Pass? <==> |Utf8.Encode(value)| < 0x1_0000
      ensures r.Pass? ==> Written() == old(Written()) + Prefixed(Utf8.Encode(value))
      ensures r.Fail? ==> parts == old(parts)
    {
      r := PutBytes(Utf8.Encode(value));
    }

    method ToBytes() returns (b: bytes)
      ensures b == Written()
    {
      b := Concat(parts);
    }
  }

  class CanonicalReader {
    const input: bytes
    var offset: nat

    constructor (input: bytes)
      ensures this.input == input && offset == 0
    {
      this.input := input;
      offset := 0;
    }

    /** The value, and the offset moved past it; an error leaves the reader unusable. */
    static predicate Reads<T(==)>(after: nat, r: Result<T, Malformed>, expected: Result<(T, nat), Malformed>) {
      match expected
      case Ok((v, next)) => r == Ok(v) && after == next
      case Err(e) => r == Err(e)
    }

    method Raw(count: nat) returns (r: Result<bytes, Malformed>)
      modifies this
      ensures Reads(offset, r, Take(input, old(offset), count))
    {
      if offset + count > |input| {
        return Err(Truncated(count, offset));
      }
      r := Ok(input[offset..offset + count]);
      offset := offset + count;
    }

    method Uint(n: nat) returns (r: Result<nat, Malformed>)
      modifies this
      ensures Reads(offset, r, GetUint(input, old(offset), n))
    {
      var raw :- Raw(n);
      return Ok(FromBigEndian(raw));
    }

    method U64() returns (r: Result<nat, Malformed>)
      modifies this
      ensures Reads(offset, r, GetU64(input, old(offset)))
    {
      var value :- Uint(8);
      return if value > MAX_SAFE then Err(UnsafeInteger) else Ok(value);
    }

    method TakeBytes() returns (r: Result<bytes, Malformed>)
      modifies this
      ensures Reads(offset, r, GetBytes(input, old(offset)))
    {
      var length :- Uint(2);
      r := Raw(length);
    }

    /** string: the text, with the bytes it was read from. */
    method TakeText() returns (r: Result<Text, Malformed>)
      modifies this
      ensures Reads(offset, r, GetText(input, old(offset)))
    {
      var raw :- TakeBytes();
      match Utf8.Decode(raw) {
        case Some(s) => return Ok(Text(raw, s));
        case None => return Err(NotUtf8);
      }
    }

    method Remaining() returns (rest: bytes)
      requires offset <= |input|
      modifies this
      ensures rest == input[old(offset)..] && offset == |input|
    {
      rest := input[offset..];
      offset := |input|;
    }

    /** Passes only when everything has been read. */
    method End() returns (r: Outcome<Malformed>)
      requires offset <= |input|
      ensures r == if offset == |input| then Pass else Fail(TrailingBytes(|input| - offset))
    {
      return if offset == |input| then Pass else Fail(TrailingBytes(|input| - offset));
    }
  }
}
