/** packages/mesh/src/agent.js: a phone that signs payments, numbering them honestly or not. */
module Agent {
  import opened Bytes
  import opened Instruction
  import opened Wrappers
  import EnvelopeCodec
  import Hpke
  import InstructionCodec
  import KeyRing
  import Sealer
  import SignedCodec
  import Utf8

  const SIX_HOURS: int := 6 * 60 * 60 * 1000

  /** How long a payment is good for when the order does not say. */
  function TtlOf(order: Order): int {
    if order.ttlMs.Some? then order.ttlMs.value else SIX_HOURS
  }

  /** Later payments have higher sequence numbers. */
  ghost predicate Increasing(issued: seq<PaymentInstruction>) {
    forall i, j :: 0 <= i < j < |issued| ==> issued[i].deviceSequence < issued[j].deviceSequence
  }

  function SealBytes(p: Sealer.Primitives, signed: SignedCodec.SignedInstruction, publicKey: bytes, keyId: int,
                     ephemeral: bytes): Result<bytes, string>
    requires Hpke.IdealCurve(p.curve) && WellFormed(signed.instruction)
  {
    match Sealer.SealSigned(p, signed, publicKey, keyId, ephemeral)
    case Err(_) => Err("sealing failed")
    case Ok(e) =>
      match EnvelopeCodec.EncodeEnvelope(e)
      case Err(_) => Err("sealing failed")
      case Ok(wire) => Ok(wire)
  }

  /** A phone's seal fails only on an unusable exchange, and a service with the key opens it to what was signed. */
  lemma SealIsOpened(p: Sealer.Primitives, signed: SignedCodec.SignedInstruction, publicKey: bytes, keyId: int,
                     ephemeral: bytes, ring: KeyRing.Ring)
    requires Sealer.Ideal(p) && WellFormed(signed.instruction) && Sealer.HasValidSignature(p, signed)
    requires |publicKey| == |ephemeral| == 32 && Sealer.Holds(p, ring, keyId, publicKey)
    ensures var wire := SealBytes(p, signed, publicKey, keyId, ephemeral);
            && (wire.Ok? <==> !Hpke.IsZero(p.curve.agree(ephemeral, publicKey)))
            && (wire.Ok? ==> Sealer.Open(p, wire.value, ring) == Ok(signed))
  {
    hide Sealer.Open, Sealer.SealSigned, EnvelopeCodec.EncodeEnvelope, Hpke.IsZero, WellFormed, Sealer.SigningInput;
    Sealer.SealedLength(p, signed, publicKey, keyId, ephemeral);
    if Sealer.SealSigned(p, signed, publicKey, keyId, ephemeral).Ok? {
      Sealer.OpenUndoesSeal(p, signed, publicKey, keyId, ephemeral, ring, ring);
    }
  }

  lemma ValidMeansWellFormed(instruction: PaymentInstruction)
    ensures InstructionCodec.Validate(instruction).None? <==> WellFormed(instruction)
  {}

  /** paymentInstruction, then signInstruction. */
  function Signed(p: Sealer.Primitives, seed: bytes,
                  instruction: PaymentInstruction): (r: Result<SignedCodec.SignedInstruction, string>)
    ensures r.Ok? <==> WellFormed(instruction)
    ensures r.Ok? ==> r.value == Sealer.SignInstruction(p, seed, instruction)
    ensures r.Ok? ==>
              && r.value.instruction == instruction && r.value.devicePublicKey == p.devicePublicOf(seed)
              && r.value.signature ==
                 p.sign(seed, Utf8.Encode("lifafa/instruction/1\n") + InstructionCodec.EncodeInstruction(instruction))
  {
    ValidMeansWellFormed(instruction);
    match InstructionCodec.Validate(instruction)
    case Some(what) => Err(what)
    case None => Ok(Sealer.SignInstruction(p, seed, instruction))
  }

  /** What an application asks a phone to pay; the nonce and the clock are inputs. */
  datatype Order = Order(to: string, amountPaise: int, ttlMs: Option<int>, sequence: Option<int>, nonce: string,
                         now: int)

  /** The payment asked for, field by field: from this payer, to the payee of the order, under this number. */
  predicate Orders(p: PaymentInstruction, payer: string, order: Order, number: int) {
    && p.senderVpa == payer && p.receiverVpa == order.to && p.amountPaise == order.amountPaise
    && p.nonce == order.nonce && p.deviceSequence == number
    && p.signedAt == order.now
    && p.expiresAt == order.now + if order.ttlMs.Some? then order.ttlMs.value else 21_600_000
  }

  class DeviceAgent {
    const vpa: string
    /** Signing with this phone's key, and sealing to the service's. */
    const sign: PaymentInstruction -> Result<SignedCodec.SignedInstruction, string>
    const seal: (SignedCodec.SignedInstruction, bytes) -> Result<bytes, string>
    var sequence: nat
    /** Every instruction signed so far. */
    ghost var issued: seq<PaymentInstruction>

    constructor (p: Sealer.Primitives, seed: bytes, vpa: string, serverPublicKey: bytes, serverKeyId: int)
      requires Hpke.IdealCurve(p.curve)
      ensures this.vpa == vpa && sequence == 0 && issued == [] && InSequence()
      ensures forall i :: sign(i) == Signed(p, seed, i)
      ensures forall s: SignedCodec.SignedInstruction, e :: WellFormed(s.instruction) ==>
                seal(s, e) == SealBytes(p, s, serverPublicKey, serverKeyId, e)
    {
      this.vpa := vpa;
      sign := (i: PaymentInstruction) => Signed(p, seed, i);
      seal := (s: SignedCodec.SignedInstruction, ephemeral: bytes) =>
        if WellFormed(s.instruction) then SealBytes(p, s, serverPublicKey, serverKeyId, ephemeral)
            else Err("malformed");
      sequence, issued := 0, [];
    }

    /** Numbered in the order they were signed, and the counter is at or past them all. */
    ghost predicate InSequence()
      reads this
    {
      Increasing(issued) && forall i :: 0 <= i < |issued| ==> issued[i].deviceSequence <= sequence
    }

    /** The instruction that an order becomes under a number. */
    function Draft(order: Order, number: int): PaymentInstruction {
      PaymentInstruction(vpa, order.to, order.amountPaise, order.nonce, number, order.now, order.now + TtlOf(order))
    }

    /** The number is used up even when the instruction is then refused. */
    method Compose(order: Order) returns (r: Result<SignedCodec.SignedInstruction, string>)
      modifies this
      ensures sequence == old(sequence) + if order.sequence.None? then 1 else 0
      ensures r.Err? ==> issued == old(issued)
      ensures r.Ok? ==> |issued| == |old(issued)| + 1 && issued[..|old(issued)|] == old(issued)
      ensures r.Ok? ==>
                var signed := issued[|old(issued)|];
                && signed.senderVpa == vpa && signed.receiverVpa == order.to
                && signed.amountPaise == order.amountPaise && signed.nonce == order.nonce
                && signed.deviceSequence == (if order.sequence.Some? then order.sequence.value else sequence)
                && signed.signedAt == order.now
                && signed.expiresAt == order.now + (if order.ttlMs.Some? then order.ttlMs.value else 21_600_000)
                && r == sign(signed)
      ensures forall i :: Orders(i, vpa, order, if order.sequence.Some? then order.sequence.value else sequence) ==>
                r == sign(i)
      ensures order.sequence.None? && old(InSequence()) ==> InSequence()
    {
      var number := 0;
      match order.sequence {
        case Some(n) => number := n;
        case None =>
          sequence := sequence + 1;
          number := sequence;
      }
      r := sign(Draft(order, number));
      if r.Ok? {
        issued := issued + [Draft(order, number)];
      }
    }

    /** pay */
    method Pay(order: Order, ephemeral: bytes) returns (r: Result<bytes, string>)
      modifies this
      ensures sequence == old(sequence) + if order.sequence.None? then 1 else 0
      ensures r.Ok? ==>
                && |issued| == |old(issued)| + 1 && issued[..|old(issued)|] == old(issued)
                && var paid := issued[|old(issued)|];
                   && Orders(paid, vpa, order, if order.sequence.Some? then order.sequence.value else sequence)
                   && sign(paid).Ok? && seal(sign(paid).value, ephemeral) == r
      ensures order.sequence.None? && old(InSequence()) ==> InSequence()
    {
      var signed :- Compose(order);
      r := seal(signed, ephemeral);
    }

    /** Two payments under one number, each in its own envelope. */
    method DoubleSpend(first: Order, second: Order, ephemerals: (bytes, bytes))
          returns (r: Result<(bytes, bytes), string>)
      requires second == first.(nonce := second.nonce, now := second.now)
      modifies this
      ensures sequence == old(sequence) + 1
      ensures r.Ok? ==>
                && |issued| == |old(issued)| + 2 && issued[..|old(issued)|] == old(issued)
                && var (a, b) := (issued[|old(issued)|], issued[|old(issued)| + 1]);
                   && Orders(a, vpa, first, sequence) && Orders(b, vpa, second, sequence)
                   && sign(a).Ok? && seal(sign(a).value, ephemerals.0) == Ok(r.value.0)
                   && sign(b).Ok? && seal(sign(b).value, ephemerals.1) == Ok(r.value.1)
    {
      sequence := sequence + 1;
      var wireA :- Pay(first.(sequence := Some(sequence)), ephemerals.0);
      var wireB :- Pay(second.(sequence := Some(sequence)), ephemerals.1);
      return Ok((wireA, wireB));
    }
  }

  /** What a double spend signs. */
  predicate IsPair(a: PaymentInstruction, b: PaymentInstruction, number: int) {
    && WellFormed(a) && WellFormed(b)
    && a.deviceSequence == b.deviceSequence == number
    && a.senderVpa == b.senderVpa && a.receiverVpa == b.receiverVpa && a.amountPaise == b.amountPaise
  }
}
