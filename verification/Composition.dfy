/** The settlement service over the sealed envelopes it really opens. */
module Composition {
  import opened Bytes
  import opened Wrappers
  import opened Tables
  import opened Claims
  import opened Ingest
  import opened Protocol
  import opened Runs
  import Agent
  import Consistency
  import EnvelopeCodec
  import History
  import Hpke
  import Instruction
  import Journey
  import KeyRing
  import Keystore
  import Mesh
  import Safety
  import Sealer
  import SignedCodec
  import Spec
  import Witness

  function CodeFor(reason: Sealer.Reason): Code {
    match reason
    case MALFORMED => Malformed
    case UNSUPPORTED => Unsupported
    case UNKNOWN_SERVER_KEY => UnknownServerKey
    case DECRYPT_FAILED => DecryptFailed
    case MALFORMED_PLAINTEXT => MalformedPlaintext
    case BAD_SIGNATURE => BadSignature
  }

  function IntentOf(s: SignedCodec.SignedInstruction): Intent {
    Intent(s.instruction, s.devicePublicKey)
  }

  function Reading(p: Sealer.Primitives, wire: bytes, ring: KeyRing.Ring): Opened
    requires Hpke.IdealCurve(p.curve)
  {
    match Sealer.Open(p, wire, ring)
    case Ok(s) => Opened(IntentOf(s))
    case Err(failure) => Unopened(CodeFor(failure.reason), Plain(failure.detail))
  }

  /** The world whose envelopes are opened by the sealer. */
  function WorldOver(p: Sealer.Primitives, fingerprint: bytes -> Fingerprint, deviceIdOf: bytes -> DeviceId,
                     unique: bool): World
    requires Hpke.IdealCurve(p.curve)
  {
    World((wire: bytes, ring: KeyRing.Ring) => Reading(p, wire, ring), fingerprint, deviceIdOf, unique)
  }

  ghost predicate Injective(f: bytes -> Fingerprint) {
    forall a, b :: f(a) == f(b) ==> a == b
  }

  /** The world whose envelopes are opened by this sealer and whose hash has no collisions. */
  ghost predicate IsSealerWorld(p: Sealer.Primitives, w: World) {
    Hpke.IdealCurve(p.curve) && Injective(w.fingerprint) && w == WorldOver(p, w.fingerprint, w.deviceIdOf, w.unique)
  }

  /** What the protocol's theorems ask of opening and hashing, the sealer provides. */
  lemma SealerIsSound(p: Sealer.Primitives, w: World)
    requires IsSealerWorld(p, w)
    ensures Sound(w)
  {
    hide Sealer.Open, Hpke.IdealCurve, Instruction.WellFormed;
    forall wire, ring | w.open(wire, ring).Opened?
      ensures Instruction.WellFormed(w.open(wire, ring).intent.instruction)
    {
      Sealer.OpenPassesTheChecks(p, wire, ring);
    }
    forall wire, small, large | KeyRing.Extends(large, small) && w.open(wire, small).Opened?
      ensures w.open(wire, large) == w.open(wire, small)
    {
      Sealer.MoreKeysOnlyHelp(p, wire, small, large);
    }
  }

  /**
   * Bytes that do not open and are not known change nothing and are to be dropped, under the code of the first of
   * the six ways to fail; one of them is a signature that does not verify.
   */
  lemma UnopenedIsRefused(p: Sealer.Primitives, w: World, db: Database, d: Delivery, entry: nat, fate: CommitFate,
                          failure: Sealer.Failure)
    requires IsSealerWorld(p, w) && Sealer.Open(p, d.wire, d.ring) == Err(failure)
    requires KnownDecision(db, w.fingerprint(d.wire)) == None
    ensures var (db', reply) := Deliver(w, db, d, entry, fate);
            && db' == db && reply == Reply(ReplyInvalid, reply.code, Plain(failure.detail), None, None, false, false)
            && (reply.code == Malformed <==> failure.reason == Sealer.MALFORMED)
            && (reply.code == Unsupported <==> failure.reason == Sealer.UNSUPPORTED)
            && (reply.code == UnknownServerKey <==> failure.reason == Sealer.UNKNOWN_SERVER_KEY)
            && (reply.code == DecryptFailed <==> failure.reason == Sealer.DECRYPT_FAILED)
            && (reply.code == MalformedPlaintext <==> failure.reason == Sealer.MALFORMED_PLAINTEXT)
            && (reply.code == BadSignature <==> failure.reason == Sealer.BAD_SIGNATURE)
  {
    hide Sealer.Open, Hpke.IdealCurve, Settlement, KeyOf, Injective, KnownDecision;
    assert w.open(d.wire, d.ring) == Reading(p, d.wire, d.ring);
  }

  /** One seal of a signed payment, to a key the ring holds. */
  datatype Seal = Seal(publicKey: bytes, keyId: int, ephemeral: bytes)

  ghost predicate SealedAs(p: Sealer.Primitives, s: SignedCodec.SignedInstruction, seal: Seal, ring: KeyRing.Ring,
                           wire: bytes) {
    && Sealer.Ideal(p) && Instruction.WellFormed(s.instruction) && Sealer.HasValidSignature(p, s)
    && |seal.ephemeral| == 32 && Sealer.Holds(p, ring, seal.keyId, seal.publicKey)
    && Sealer.SealSigned(p, s, seal.publicKey, seal.keyId, seal.ephemeral).Ok?
    && EnvelopeCodec.EncodeEnvelope(Sealer.SealSigned(p, s, seal.publicKey, seal.keyId, seal.ephemeral).value)
        == Ok(wire)
  }

  lemma SealIsRead(p: Sealer.Primitives, w: World, s: SignedCodec.SignedInstruction, seal: Seal, ring: KeyRing.Ring,
                   later: KeyRing.Ring, wire: bytes)
    requires SealedAs(p, s, seal, ring, wire) && KeyRing.Extends(later, ring) && IsSealerWorld(p, w)
    ensures w.open(wire, later) == Opened(IntentOf(s))
  {
    SealOpens(p, s, seal, ring, later, wire);
    hide SealedAs, Sealer.Open;
  }

  lemma SealOpens(p: Sealer.Primitives, s: SignedCodec.SignedInstruction, seal: Seal, ring: KeyRing.Ring,
                  later: KeyRing.Ring, wire: bytes)
    requires SealedAs(p, s, seal, ring, wire) && KeyRing.Extends(later, ring)
    ensures Hpke.IdealCurve(p.curve) && Sealer.Open(p, wire, later) == Ok(s)
  {
    hide Sealer.SealSigned, EnvelopeCodec.EncodeEnvelope, Sealer.Open, Sealer.HasValidSignature, Sealer.Holds;
    Sealer.OpenUndoesSeal(p, s, seal.publicKey, seal.keyId, seal.ephemeral, ring, later);
  }

  /** The key these bytes name, if they are an envelope. */
  function KeyNamed(wire: bytes): Option<int> {
    match EnvelopeCodec.DecodeEnvelope(wire)
    case Ok(e) => Some(e.serverKeyId)
    case Err(_) => None
  }

  /** Which rings open an envelope that the stored keys open: those that hold the key its header names. */
  lemma KeyDecides(p: Sealer.Primitives, w: World, wire: bytes, ring: KeyRing.Ring, stored: KeyRing.Ring, id: int)
    requires IsSealerWorld(p, w) && KeyRing.Extends(stored, ring)
    requires w.open(wire, stored).Opened? && KeyNamed(wire) == Some(id)
    ensures id in ring.keys ==> w.open(wire, ring) == w.open(wire, stored)
    ensures id !in ring.keys ==> exists detail :: w.open(wire, ring) == Unopened(UnknownServerKey, detail)
  {
    hide Sealer.OpenWith, EnvelopeCodec.DecodeEnvelope, Hpke.IdealCurve, Injective;
    assert id in ring.keys ==> stored.keys[id] == ring.keys[id];
    if id !in ring.keys {
      assert w.open(wire, ring) == Unopened(UnknownServerKey, w.open(wire, ring).detail);
    }
  }

  /** Rings loaded from the store at any times are such as the protocol lets processes hold and rotate to. */
  lemma StoredRingsAreAllowed(w: World, s: State, publicOf: bytes -> bytes, history: seq<Keystore.Rows>, i: nat, j: nat,
                              k: nat, id: nat, wire: bytes, now: int)
    requires Keystore.Rotations(history) && i <= j <= k < |history|
    requires Keystore.Live(history[j]) != {} ==> s.ring == Keystore.RingOf(publicOf, history[j])
    requires id !in s.deliveries
    ensures forall a :: 0 <= a < |history| ==> Keystore.Live(history[a]) != {}
    ensures Enabled(w, s, Arrive(id, wire, Keystore.RingOf(publicOf, history[i]), now))
    ensures Enabled(w, s, Rotate(Keystore.RingOf(publicOf, history[k])))
  {
    hide Keystore.RingOf, Keystore.Live, KeyRing.Extends, Keystore.Rotations, Wants, Free, NoneLocked;
    forall a | 0 <= a < |history|
      ensures Keystore.Live(history[a]) != {}
    {
      Keystore.EveryLaterRingExtends(publicOf, history, a, a);
    }
    Keystore.EveryLaterRingExtends(publicOf, history, i, j);
    Keystore.EveryLaterRingExtends(publicOf, history, j, k);
  }

  /**
   * A payment sealed to a key that the process has loaded is decided by one uninterrupted delivery to it at
   * any point of a run, whatever was rotated in between, unless another delivery's lease on it is still
   * running; a process that has not loaded the key refuses the envelope and has it dropped.
   */
  lemma SealedPaymentIsDecided(p: Sealer.Primitives, w: World, r: Run, n: nat, s: SignedCodec.SignedInstruction,
                               seal: Seal, d: Delivery)
    requires IsSealerWorld(p, w)
    requires IsRun(w, r) && SealedAs(p, s, seal, r.state(n).ring, d.wire)
    requires KeyRing.Extends(r.state(n).ring, d.ring)
    ensures var db, key := r.state(n).db, Instruction.IdempotencyKey(s.instruction);
            var (db', reply) := Deliver(w, db, d, r.state(n).nextEntry, Acknowledged);
            if seal.keyId in d.ring.keys then
              Consistency.DecidedUnlessHeld(db.claims, d.dbNow, key, db'.claims, reply)
            else KnownDecision(db, w.fingerprint(d.wire)).None? ==>
              db' == db && reply.outcome == ReplyInvalid && reply.code == UnknownServerKey && !reply.bridgeShouldRetain
  {
    hide IsSealerWorld, IsRun, SealedAs, Consistency.DecidedUnlessHeld, Settlement, KeyNamed;
    SealerIsSound(p, w);
    SealIsRead(p, w, s, seal, r.state(n).ring, r.state(n).ring, d.wire);
    SealNamesItsKey(p, s, seal, r.state(n).ring, d.wire);
    KeyDecides(p, w, d.wire, d.ring, r.state(n).ring, seal.keyId);
    if seal.keyId in d.ring.keys {
      hide Deliver;
      NothingIsStranded(w, r, n, d, IntentOf(s));
    }
  }

  lemma SealNamesItsKey(p: Sealer.Primitives, s: SignedCodec.SignedInstruction, seal: Seal, ring: KeyRing.Ring,
                        wire: bytes)
    requires SealedAs(p, s, seal, ring, wire)
    ensures KeyNamed(wire) == Some(seal.keyId)
  {
    Sealer.SealedNamesItsKey(p, s, seal.publicKey, seal.keyId, seal.ephemeral, ring);
  }

  /** Different envelopes around one signed payment are never answered with different decisions. */
  lemma ResealsAgree(p: Sealer.Primitives, w: World, r: Run, n: nat, a: nat, first: Reply, b: nat, second: Reply,
                     s: SignedCodec.SignedInstruction, sealA: Seal, sealB: Seal)
    requires IsSealerWorld(p, w)
    requires IsRun(w, r)
    requires Runs.Answer(r.state(n), a) == Some(first) && Runs.Answer(r.state(n), b) == Some(second)
    requires SealedAs(p, s, sealA, r.state(n).ring, r.state(n).At(a).wire)
    requires SealedAs(p, s, sealB, r.state(n).ring, r.state(n).At(b).wire)
    ensures first.(isReplay := true) == second.(isReplay := true)
    ensures first.key == Some(Instruction.IdempotencyKey(s.instruction))
    ensures a == b || first.isReplay || second.isReplay
  {
    hide IsSealerWorld, IsRun, SealedAs, Sound;
    var ring := r.state(n).ring;
    SealerIsSound(p, w);
    SealIsRead(p, w, s, sealA, ring, ring, r.state(n).At(a).wire);
    SealIsRead(p, w, s, sealB, ring, ring, r.state(n).At(b).wire);
    RepliesAgree(w, r, n, a, first, n, a, first);
    RepliesAgree(w, r, n, b, second, n, b, second);
    RepliesAgree(w, r, n, a, first, n, b, second);
    if !first.isReplay && !second.isReplay {
      OneOriginalReply(w, r, n, a, first, b, second);
    }
  }

  /** A run of the service and a travel beside it that end with the last copy of an undecided payment gone. */
  ghost predicate IsLoss(p: Sealer.Primitives, w: World, r: Run, t: Journey.Travel, n: Mesh.NodeId,
                         k: Mesh.Fingerprint, wire: bytes) {
    && IsSealerWorld(p, w) && IsRun(w, r) && Journey.IsTravel(r, t) && Journey.Carries(t.First().holdings, n, k, wire)
    && forall i: nat :: i >= 4 ==>
         && !Journey.Carries(t.moment(i).holdings, n, k, wire)
         && !Journey.Over(w, Journey.ServiceAt(r, t, i), wire)
  }

  /**
   * In this service, then, the last copy of a payment sealed to a newly rotated key is lost when it is posted
   * to a process that still has the ring of before the rotation.
   */
  lemma SealedPaymentCanBeLost(p: Sealer.Primitives, w: World, s: SignedCodec.SignedInstruction, seal: Seal,
                               older: KeyRing.Ring, newer: KeyRing.Ring, n: Mesh.NodeId, k: Mesh.Fingerprint,
                               wire: bytes)
      returns (r: Run, t: Journey.Travel)
    requires IsSealerWorld(p, w) && SealedAs(p, s, seal, newer, wire)
    requires KeyRing.Extends(newer, older) && seal.keyId !in older.keys
    ensures IsLoss(p, w, r, t, n, k, wire)
  {
    hide IsSealerWorld, IsRun, SealedAs, KeyNamed, Journey.IsTravel, Journey.Carries, Journey.Over, Sound;
    SealerIsSound(p, w);
    SealIsRead(p, w, s, seal, newer, newer, wire);
    SealNamesItsKey(p, s, seal, newer, wire);
    KeyDecides(p, w, wire, older, newer, seal.keyId);
    r, t := Journey.OlderProcessLosesIt(w, older, newer, n, k, wire);
  }

  /** Every payment seals to every key, but for exchanges that the curve refuses. */
  lemma SealExists(p: Sealer.Primitives, seed: bytes, instruction: Instruction.PaymentInstruction, privateKey: bytes,
                   keyId: int, ephemeral: bytes)
      returns (seal: Seal, ring: KeyRing.Ring, wire: bytes)
    requires Sealer.Ideal(p) && Instruction.WellFormed(instruction) && |privateKey| == |ephemeral| == 32
    requires 0 <= keyId < 0x1_0000_0000 && !Hpke.IsZero(p.curve.agree(ephemeral, p.curve.publicOf(privateKey)))
    ensures SealedAs(p, Sealer.SignInstruction(p, seed, instruction), seal, ring, wire) && seal.keyId == keyId
  {
    hide Instruction.WellFormed, Sealer.SealSigned, EnvelopeCodec.EncodeEnvelope, Sealer.SigningInput;
    var publicKey := p.curve.publicOf(privateKey);
    var s := Sealer.SignInstruction(p, seed, instruction);
    Sealer.SealedLength(p, s, publicKey, keyId, ephemeral);
    seal := Seal(publicKey, keyId, ephemeral);
    ring := KeyRing.Ring(map[keyId := KeyRing.ServerKey(privateKey, publicKey)], keyId);
    wire := EnvelopeCodec.EncodeEnvelope(Sealer.SealSigned(p, s, publicKey, keyId, ephemeral).value).value;
  }

  lemma LossUnder(p: Sealer.Primitives, w: World) returns (r: Run, t: Journey.Travel, wire: bytes)
    requires Sealer.Ideal(p) && IsSealerWorld(p, w) && forall a, b :: !Hpke.IsZero(p.curve.agree(a, b))
    ensures IsLoss(p, w, r, t, "", "", wire)
  {
    hide Sealer.Ideal, IsLoss, SealedAs, IsSealerWorld, Instruction.WellFormed, Hpke.IsZero, Hpke.IdealCurve,
      Sealer.SignInstruction;
    Witness.PaymentIsWellFormed();
    var key: bytes := seq(32, _ => 0);
    var seal, newer, sealed := SealExists(p, [], Witness.PAYMENT, key, 2, key);
    wire := sealed;
    r, t := SealedPaymentCanBeLost(p, w, Sealer.SignInstruction(p, [], Witness.PAYMENT), seal, KeyRing.Ring(map[], 0),
      newer, "", "", wire);
  }

  lemma SealerWorldExists(p: Sealer.Primitives) returns (w: World)
    requires Sealer.Ideal(p)
    ensures IsSealerWorld(p, w)
  {
    hide Hpke.IdealCurve, Injective, Witness.AsText, Reading;
    TextIsInjective();
    w := WorldOver(p, Witness.AsText, (key: bytes) => "phone", true);
  }

  /** So there is such a service, and such a loss. */
  lemma ALossHappens()
    ensures exists p, w, r, t, n, k, wire :: IsLoss(p, w, r, t, n, k, wire)
  {
    hide Sealer.Ideal, IsLoss, IsSealerWorld, Hpke.IsZero;
    Sealer.IdealPrimitivesExist();
    var p: Sealer.Primitives :| Sealer.Ideal(p) && forall a, b :: !Hpke.IsZero(p.curve.agree(a, b));
    var w := SealerWorldExists(p);
    var r, t, wire := LossUnder(p, w);
  }

  lemma TextIsInjective()
    ensures Injective(Witness.AsText)
  {
    forall a, b | Witness.AsText(a) == Witness.AsText(b)
      ensures a == b
    {
      Witness.TextsDiffer(a, b);
    }
  }

  // ---------------------------------------------------------------------------------------------
  // The phone's side
  // ---------------------------------------------------------------------------------------------

  /** Whatever has been delivered and opens as this device's, the device issued. */
  ghost predicate DeliveredOnly(w: World, s: State, device: DeviceId, issued: seq<Instruction.PaymentInstruction>) {
    forall intent :: Runs.Delivered(w, s, device, intent) ==> intent.instruction in issued
  }

  lemma DeliveredOnlyBefore(w: World, s: State, later: State, device: DeviceId,
                            issued: seq<Instruction.PaymentInstruction>)
    requires Sound(w) && Later(s, later) && DeliveredOnly(w, later, device, issued)
    ensures DeliveredOnly(w, s, device, issued)
  {
    hide Safety.DecisionsKept;
    forall intent | Runs.Delivered(w, s, device, intent)
      ensures Runs.Delivered(w, later, device, intent)
    {
      var i :| i in s.deliveries && w.open(s.At(i).wire, s.ring) == Opened(intent);
      Safety.ReadingIsStable(w, s.ring, later.ring, s.At(i).wire);
    }
  }

  lemma OrdinaryUseIsHonest(w: World, s: State, device: DeviceId, issued: seq<Instruction.PaymentInstruction>)
    requires Agent.Increasing(issued) && DeliveredOnly(w, s, device, issued)
    ensures Honest(w, s, device)
  {
    hide Runs.Delivered;
    forall i, j | 0 <= i < |issued| && 0 <= j < |issued| && issued[i].deviceSequence == issued[j].deviceSequence
      ensures issued[i] == issued[j]
    {
      assert !(i < j) && !(j < i);
    }
  }

  /**
   * A device that only lets its counter number its payments stays active through the run unless an
   * operator revokes it, however its envelopes are re-sealed, lost, copied or reordered.
   */
  lemma {:induction false} OrdinaryUseIsNeverRevoked(w: World, r: Run, n: nat, m: nat, device: DeviceId,
                                                     issued: seq<Instruction.PaymentInstruction>)
    requires Sound(w) && IsRun(w, r) && n <= m && Agent.Increasing(issued)
    requires DeliveredOnly(w, r.state(m), device, issued) && IsActive(r.state(n).db, device)
    requires forall i: nat, reason :: n <= i < m ==> r.step(i) != Operate(Spec.RevokeDevice(device, reason))
    ensures IsActive(r.state(m).db, device)
    decreases m
  {
    hide Sound, IsRun, Later, DeliveredOnly, IsActive, Honest, Agent.Increasing;
    if n < m {
      var last := m - 1;
      DecisionsAreKept(w, r, last, m);
      DeliveredOnlyBefore(w, r.state(last), r.state(m), device, issued);
      OrdinaryUseIsNeverRevoked(w, r, n, last, device, issued);
      OrdinaryUseIsHonest(w, r.state(last), device, issued);
      HonestDeviceIsNeverRevoked(w, r, last, device);
      assert r.After(last) == r.state(m);
    }
  }

  /** Of two payments signed under one number, money moves for at most one. */
  lemma OnePaymentOfAPairSettles(w: World, r: Run, n: nat, i: nat, j: nat, a: Instruction.PaymentInstruction,
                                 b: Instruction.PaymentInstruction, number: int, publicKey: bytes)
    requires Sound(w) && IsRun(w, r) && i < |r.state(n).log| && j < |r.state(n).log|
    requires r.state(n).log[i].Decided? && r.state(n).log[j].Decided?
    requires Agent.IsPair(a, b, number) && a.nonce != b.nonce
    requires r.state(n).log[i].req.intent == Intent(a, publicKey)
    requires r.state(n).log[j].req.intent == Intent(b, publicKey)
    ensures !(r.state(n).log[i].verdict.Settle? && r.state(n).log[j].verdict.Settle?)
  {
    hide Sound, IsRun, KeyOf, Instruction.WellFormed;
    var first, second := r.state(n).log[i], r.state(n).log[j];
    DecisionsNameTheirDevice(w, r, n, first.id, first.req, first.verdict);
    DecisionsNameTheirDevice(w, r, n, second.id, second.req, second.verdict);
    if first.verdict.Settle? && second.verdict.Settle? {
      if i < j {
        OneSettlementPerSequenceNumber(w, r, n, i, j);
      } else {
        OneSettlementPerSequenceNumber(w, r, n, j, i);
      }
    }
  }

  /** These bytes seal an instruction of this device, to a key the service held at some point. */
  ghost predicate SealedFrom(p: Sealer.Primitives, seed: bytes, instruction: Instruction.PaymentInstruction,
                             seal: Seal, held: KeyRing.Ring, wire: bytes)
  {
    Instruction.WellFormed(instruction)
    && SealedAs(p, Sealer.SignInstruction(p, seed, instruction), seal, held, wire)
  }

  /** These bytes carry one of the phone's payments: any of them, however often sealed. */
  ghost predicate CarriesOwn(p: Sealer.Primitives, seed: bytes, issued: seq<Instruction.PaymentInstruction>,
                             ring: KeyRing.Ring, wire: bytes)
  {
    exists instruction, seal, held ::
      instruction in issued && KeyRing.Extends(ring, held) && SealedFrom(p, seed, instruction, seal, held, wire)
  }

  /** The payer has that much less, the payee that much more, nobody else a changed balance. */
  predicate AmountMoved(a: Database, b: Database, payer: Vpa, payee: Vpa, amount: int, device: DeviceId) {
    && payer in a.accounts && payee in a.accounts && payer != payee && b.accounts.Keys == a.accounts.Keys
    && b.accounts[payer].balance == a.accounts[payer].balance - amount
    && b.accounts[payee].balance == a.accounts[payee].balance + amount
    && (forall v :: v in a.accounts && v != payer && v != payee ==> b.accounts[v] == a.accounts[v])
    && device in a.envelopes && device in b.envelopes
    && b.envelopes[device].allowance == a.envelopes[device].allowance - amount
  }

  /**
   * From the order to the money: when an envelope in which a phone sealed what it was asked to pay is settled,
   * that commit moves the amount asked for from the phone's account to the payee of the order, and takes it off
   * the allowance of that phone's device.
   */
  lemma OrderIsPaid(p: Sealer.Primitives, w: World, r: Run, n: nat, id: nat, acknowledged: bool, entry: nat,
                    seed: bytes, payer: string, order: Agent.Order, number: int,
                    instruction: Instruction.PaymentInstruction, seal: Seal, held: KeyRing.Ring)
    requires Sealer.Ideal(p) && IsSealerWorld(p, w) && IsRun(w, r) && r.step(n) == Commit(id, acknowledged)
    requires Agent.Orders(instruction, payer, order, number) && KeyRing.Extends(r.state(n).ring, held)
    requires SealedFrom(p, seed, instruction, seal, held, r.state(n).At(id).wire)
    requires r.state(n).At(id).tx.verdict == Settle(entry)
    ensures AmountMoved(r.state(n).db, r.After(n).db, payer, order.to, order.amountPaise,
                        w.deviceIdOf(p.devicePublicOf(seed)))
  {
    hide IsSealerWorld, SealedAs, IsRun, Sound, Instruction.WellFormed, Sealer.SignInstruction;
    SealerIsSound(p, w);
    SealIsRead(p, w, Sealer.SignInstruction(p, seed, instruction), seal, held, r.state(n).ring, r.state(n).At(id).wire);
    SignedForItself(p, seed, instruction);
    CommitterRead(w, r, n, id, acknowledged);
    SettlementPays(w, r, n, id, acknowledged, entry);
  }

  lemma SignedForItself(p: Sealer.Primitives, seed: bytes, instruction: Instruction.PaymentInstruction)
    requires Instruction.WellFormed(instruction)
    ensures IntentOf(Sealer.SignInstruction(p, seed, instruction)) == Intent(instruction, p.devicePublicOf(seed))
  {}

  lemma CommitterRead(w: World, r: Run, n: nat, id: nat, acknowledged: bool)
    requires Sound(w) && IsRun(w, r) && r.step(n) == Commit(id, acknowledged)
    ensures w.open(r.state(n).At(id).wire, r.state(n).ring) == Opened(r.state(n).At(id).intent)
  {
    hide Sound, Safety.Isolated, Safety.TablesGood, Safety.WellHeld, Safety.RepliesTrue, History.HistoryTrue, Spec.View,
      Spec.DecidesOnce, ReqOf, Merge, Safety.Faithful;
    CommitOfRun(w, r, n, id, acknowledged);
    Safety.DeliveryReads(w, r.state(n), id);
  }

  lemma OwnIsIssued(p: Sealer.Primitives, w: World, ring: KeyRing.Ring, seed: bytes,
                    issued: seq<Instruction.PaymentInstruction>, wire: bytes, intent: Intent)
    requires Sealer.Ideal(p) && IsSealerWorld(p, w)
    requires CarriesOwn(p, seed, issued, ring, wire) && w.open(wire, ring) == Opened(intent)
    ensures intent.instruction in issued
  {
    hide IsSealerWorld, SealedAs;
    var instruction, seal, held :|
      instruction in issued && KeyRing.Extends(ring, held) && SealedFrom(p, seed, instruction, seal, held, wire);
    SealIsRead(p, w, Sealer.SignInstruction(p, seed, instruction), seal, held, ring, wire);
  }

  /** Each delivered envelope carries one of the phone's own payments or does not open as its own. */
  ghost predicate OnlyOwnDelivered(p: Sealer.Primitives, w: World, s: State, device: DeviceId, seed: bytes,
                                   issued: seq<Instruction.PaymentInstruction>) {
    forall i, intent :: i in s.deliveries && w.open(s.At(i).wire, s.ring) == Opened(intent) ==>
      CarriesOwn(p, seed, issued, s.ring, s.At(i).wire) || w.deviceIdOf(intent.publicKey) != device
  }

  /**
   * A phone that has only used its counter is never revoked by settlement: through any run in which
   * each delivered envelope either carries one of its own payments or does not open as its own.
   */
  lemma PhoneIsNeverRevoked(p: Sealer.Primitives, w: World, r: Run, n: nat, m: nat, seed: bytes,
                            phone: Agent.DeviceAgent)
    requires Sealer.Ideal(p) && IsSealerWorld(p, w)
    requires IsRun(w, r) && n <= m && phone.InSequence()
    requires IsActive(r.state(n).db, w.deviceIdOf(p.devicePublicOf(seed)))
    requires OnlyOwnDelivered(p, w, r.state(m), w.deviceIdOf(p.devicePublicOf(seed)), seed, phone.issued)
    requires forall i: nat, reason ::
               n <= i < m ==> r.step(i) != Operate(Spec.RevokeDevice(w.deviceIdOf(p.devicePublicOf(seed)), reason))
    ensures IsActive(r.state(m).db, w.deviceIdOf(p.devicePublicOf(seed)))
  {
    hide IsSealerWorld, IsRun, IsActive, Sound, CarriesOwn, Agent.Increasing;
    var device, s := w.deviceIdOf(p.devicePublicOf(seed)), r.state(m);
    SealerIsSound(p, w);
    forall intent | Runs.Delivered(w, s, device, intent)
      ensures intent.instruction in phone.issued
    {
      var i :| i in s.deliveries && w.open(s.At(i).wire, s.ring) == Opened(intent);
      OwnIsIssued(p, w, s.ring, seed, phone.issued, s.At(i).wire, intent);
    }
    OrdinaryUseIsNeverRevoked(w, r, n, m, device, phone.issued);
  }
}
