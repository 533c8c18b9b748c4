/** apps/server/src/ingest.js: what the service does with an envelope a bridge posts to it. */
module Ingest {
  import opened Bytes
  import opened Wrappers
  import opened Tables
  import opened Claims
  import opened Registry
  import Instruction
  import KeyRing
  import Ledger
  import Receipts

  const MAX_PACKET_AGE_MS: int := 6 * 60 * 60 * 1000
  const CLOCK_SKEW_MS: int := 5 * 60 * 1000

  /** What a readable envelope says: a payment, and the key that signed it. */
  datatype Intent = Intent(instruction: Instruction.PaymentInstruction, publicKey: bytes)

  datatype Opened = Opened(intent: Intent) | Unopened(code: Code, detail: Detail)

  /**
   * What the service is built on: opening an envelope under a key ring, hashing it, and deriving a
   * device id. `unique` says whether the journal has its UNIQUE idempotency key.
   */
  datatype World = World(
    open: (bytes, KeyRing.Ring) -> Opened,
    fingerprint: bytes -> Fingerprint,
    deviceIdOf: bytes -> DeviceId,
    unique: bool)

  /** Readable envelopes hold well-formed payments, more keys change no reading, hashes do not collide. */
  ghost predicate Sound(w: World) {
    && (forall wire, ring :: w.open(wire, ring).Opened? ==>
        Instruction.WellFormed(w.open(wire, ring).intent.instruction))
    && (forall wire, small, large :: KeyRing.Extends(large, small) && w.open(wire, small).Opened? ==>
          w.open(wire, large) == w.open(wire, small))
    && (forall a, b :: w.fingerprint(a) == w.fingerprint(b) ==> a == b)
  }

  function KeyOf(intent: Intent): Key {
    Instruction.IdempotencyKey(intent.instruction)
  }

  /** The payment these bytes hold, if they open under this ring. */
  function Inside(w: World, wire: bytes, ring: KeyRing.Ring): Option<Key> {
    match w.open(wire, ring)
    case Opened(intent) => Some(KeyOf(intent))
    case Unopened(_, _) => None
  }

  // ---------------------------------------------------------------------------------------------
  // Replies
  // ---------------------------------------------------------------------------------------------

  datatype ReplyOutcome = ReplySettled | ReplyRejected | ReplyInvalid | ReplyInProgress | ReplyTransient

  datatype Reply = Reply(
    outcome: ReplyOutcome,
    code: Code,
    detail: Detail,
    key: Option<Key>,
    entry: Option<nat>,
    isReplay: bool,
    bridgeShouldRetain: bool)

  /** Did this reply announce a decision? */
  predicate Announces(reply: Reply) {
    reply.outcome == ReplySettled || reply.outcome == ReplyRejected
  }

  /** What the deciding delivery answers. */
  function Original(key: Key, verdict: Verdict): Reply {
    match verdict
    case Settle(entry) => Reply(ReplySettled, SettledCode, Blank, Some(key), Some(entry), false, false)
    case Refuse(code, detail) => Reply(ReplyRejected, code, detail, Some(key), None, false, false)
  }

  /** What a later copy is answered, from the stored row alone. */
  function Replay(key: Key, claim: Claim): Reply {
    Reply(
      if claim.state == Settled then ReplySettled else ReplyRejected,
      if claim.state == Settled then SettledCode else if claim.code.Some? then claim.code.value else SettledCode,
      if claim.reason.Some? then claim.reason.value else Blank,
      Some(key), claim.entry, true, false)
  }

  function InvalidReply(code: Code, detail: Detail): Reply {
    Reply(ReplyInvalid, code, detail, None, None, false, false)
  }

  function HeldReply(key: Key): Reply {
    Reply(ReplyInProgress, ClaimHeld, Plain("another delivery is deciding this payment"), Some(key), None, false, true)
  }

  function TransientReply(key: Key, error: Detail): Reply {
    Reply(ReplyTransient, RetryLater, error, Some(key), None, false, true)
  }

  /** Replaying the row that updateDecision wrote rebuilds the original reply, but for its replay mark. */
  lemma ReplayRebuildsTheReply(key: Key, holder: Holder, verdict: Verdict)
    ensures IsDecided(DecidedRow(holder, verdict))
    ensures Replay(key, DecidedRow(holder, verdict)).(isReplay := false) == Original(key, verdict)
  {
    match verdict
    case Settle(_) =>
    case Refuse(_, _) =>
  }

  /** The decided claim behind a fingerprint, if the payment in it is already decided. */
  function KnownDecision(db: Database, fp: Fingerprint): Option<Key> {
    if fp in db.fingerprints && DecidedIn(db.claims, db.fingerprints[fp])
    then Some(db.fingerprints[fp]) else None
  }

  // ---------------------------------------------------------------------------------------------
  // Deciding
  // ---------------------------------------------------------------------------------------------

  /** The first objection to a payment's age, if there is one. */
  function FreshnessProblem(p: Instruction.PaymentInstruction, now: int): Option<Detail> {
    if now > p.expiresAt then Some(PastPayerExpiry(p.expiresAt))
    else if now - p.signedAt > MAX_PACKET_AGE_MS then Some(SignedMinutesAgo((now - p.signedAt + 30_000) / 60_000))
    else if p.signedAt - now > CLOCK_SKEW_MS then Some(SignedInTheFuture)
    else None
  }

  /** A delivery that holds the claim, about to decide. */
  datatype Request = Request(key: Key, holder: Holder, intent: Intent, device: DeviceId, now: int)

  function PaymentOf(req: Request): Instruction.PaymentInstruction {
    req.intent.instruction
  }

  function SequenceOf(req: Request): SequenceNo {
    SequenceNo(req.device, PaymentOf(req).deviceSequence)
  }

  function MovementsOf(req: Request): seq<Ledger.Movement> {
    Ledger.TransferMovements(PaymentOf(req).senderVpa, PaymentOf(req).receiverVpa, PaymentOf(req).amountPaise)
  }

  /** Where the decision stands before the receipt and the claim are written. */
  datatype Plan =
    | WillRefuse(db: Database, code: Code, detail: Detail)
    | WillSettle(db: Database, entry: nat)
    | WillAbort(error: Detail)

  /** The transfer and the allowance. */
  function PlanMoney(db: Database, unique: bool, visible: set<Vpa>, req: Request, entry: nat): Plan {
    match Ledger.Post(db, unique, visible, req.key, PaymentEntry, MovementsOf(req), entry)
    case Ok(posted) => (
      match Consume(posted.envelopes, req.device, PaymentOf(req).amountPaise)
      case Some(spent) => WillSettle(posted.(envelopes := spent), entry)
      case None => WillAbort(AllowanceGone(req.device, PaymentOf(req).amountPaise)))
    case Err(NotEnough(v, balance, needs)) => WillRefuse(db, InsufficientFunds, Shortfall(v, balance, needs))
    case Err(MissingAccount(v)) => WillRefuse(db, UnknownAccount, NoSuchAccount(v))
    case Err(_) => WillAbort(DatabaseError)
  }

  /** The sequence number, the limits, then the money. */
  function PlanPayment(db: Database, unique: bool, visible: set<Vpa>, req: Request, limits: Limits, entry: nat): Plan {
    var (sequences, outcome) := RecordSequence(db.sequences, SequenceOf(req), req.key);
    var number := PaymentOf(req).deviceSequence;
    if outcome == ReusedForDifferentPayment then
      WillRefuse(db.(devices := Revoke(db.devices, req.device, SequenceReusedForAnother(number))),
                 SequenceReuse, DeviceReusedSequence(req.device, number))
    else
      var recorded := db.(sequences := sequences);
      match LimitProblem(limits, PaymentOf(req).amountPaise)
      case Some(detail) => WillRefuse(recorded, OfflineLimitExceeded, detail)
      case None => PlanMoney(recorded, unique, visible, req, entry)
  }

  /**
   * Everything decide does up to the receipt. `auth` is what authorize read and `visible` the
   * accounts the locking SELECT saw: the two reads that no lock protects until commit.
   */
  function MakePlan(db: Database, unique: bool, visible: set<Vpa>, req: Request, auth: Authorization,
                    entry: nat): Plan
  {
    match auth
    case Denied(code, detail) => WillRefuse(db, code, detail)
    case Allowed(limits) =>
      match FreshnessProblem(PaymentOf(req), req.now)
      case Some(detail) => WillRefuse(db, StaleOrFutureDated, detail)
      case None => PlanPayment(db, unique, visible, req, limits, entry)
  }

  datatype Decision = Committed(db: Database, verdict: Verdict) | Aborted(error: Detail)

  /** The receipt and the claim: the last two writes, or nothing at all. */
  function Conclude(db: Database, req: Request, verdict: Verdict): Decision {
    match UpdateDecision(db.claims, req.key, req.holder, verdict)
    case None => Aborted(ClaimNoLongerHeld(req.key))
    case Some(claims) => Committed(db.(receipts := Receipts.Issued(db.receipts, req.key, verdict), claims := claims),
        verdict)
  }

  function Decide(db: Database, unique: bool, visible: set<Vpa>, req: Request, auth: Authorization,
                  entry: nat): Decision
  {
    match MakePlan(db, unique, visible, req, auth, entry)
    case WillAbort(error) => Aborted(error)
    case WillRefuse(planned, code, detail) => Conclude(planned, req, Refuse(code, detail))
    case WillSettle(planned, id) => Conclude(planned, req, Settle(id))
  }

  function AuthorizeRequest(db: Database, req: Request): Authorization {
    Authorize(db.devices, db.envelopes, req.device, req.intent.publicKey, PaymentOf(req).senderVpa)
  }

  /** decide with nothing running beside it. */
  function DecideAlone(db: Database, unique: bool, req: Request, entry: nat): Decision {
    Decide(db, unique, db.accounts.Keys, req, AuthorizeRequest(db, req), entry)
  }

  // ---------------------------------------------------------------------------------------------
  // One delivery with nothing running beside it
  // ---------------------------------------------------------------------------------------------

  /** How COMMIT ends: acknowledged, applied although its acknowledgement is lost, or not applied. */
  datatype CommitFate = Acknowledged | AppliedButUnacknowledged | NotApplied

  datatype Delivery = Delivery(wire: bytes, ring: KeyRing.Ring, now: int, dbNow: int, holder: Holder)

  function RequestFor(w: World, d: Delivery, intent: Intent): Request {
    Request(KeyOf(intent), d.holder, intent, w.deviceIdOf(intent.publicKey), d.now)
  }

  /** INSERT .. ON CONFLICT DO NOTHING: the first payment noted for these bytes stays. */
  function Noted(w: World, db: Database, wire: bytes, key: Key): Database {
    if w.fingerprint(wire) in db.fingerprints then db
    else db.(fingerprints := db.fingerprints[w.fingerprint(wire) := key])
  }

  /** The transaction, and what follows when it fails. */
  function Settlement(w: World, db: Database, d: Delivery, intent: Intent, entry: nat, fate: CommitFate)
    : (Database, Reply)
  {
    var req := RequestFor(w, d, intent);
    match DecideAlone(db, w.unique, req, entry)
    case Aborted(error) =>
      (db.(claims := Released(db.claims, req.key, req.holder)), TransientReply(req.key, error))
    case Committed(decided, verdict) =>
      match fate
      case Acknowledged => (decided, Original(req.key, verdict))
      case AppliedButUnacknowledged =>
        (decided.(claims := Released(decided.claims, req.key, req.holder)), TransientReply(req.key, DatabaseError))
      case NotApplied =>
        (db.(claims := Released(db.claims, req.key, req.holder)), TransientReply(req.key, DatabaseError))
  }

  function Deliver(w: World, db: Database, d: Delivery, entry: nat, fate: CommitFate): (Database, Reply) {
    var fp := w.fingerprint(d.wire);
    match KnownDecision(db, fp)
    case Some(key) => (db, Replay(key, db.claims[key]))
    case None =>
      match w.open(d.wire, d.ring)
      case Unopened(code, detail) => (db, InvalidReply(code, detail))
      case Opened(intent) =>
        var key := KeyOf(intent);
        var noted := Noted(w, db, d.wire, key);
        match Upsert(db.claims, key, d.holder, d.dbNow, DEFAULT_LEASE_MS)
        case Some(claims) => Settlement(w, noted.(claims := claims), d, intent, entry, fate)
        case None =>
          (noted, if DecidedIn(db.claims, key) then Replay(key, db.claims[key]) else HeldReply(key))
  }

  // ---------------------------------------------------------------------------------------------
  // The statements themselves
  // ---------------------------------------------------------------------------------------------

  predicate FreshIdentities(entries: map<nat, Entry>, next: nat) {
    forall e :: e in entries ==> e < next
  }

  /** receipts.issue, then markSettled or markRejected. */
  method WriteDecision(store: Store, req: Request, verdict: Verdict) returns (r: Result<Verdict, Detail>)
    modifies store`receipts, store`claims
    ensures match Conclude(old(store.Tables()), req, verdict)
            case Committed(db, v) => r == Ok(v) && store.Tables() == db
            case Aborted(error) => r == Err(error)
  {
    Receipts.Issue(store, req.key, verdict);
    var held := MarkDecision(store, req.key, req.holder, verdict);
    return if held then Ok(verdict) else Err(ClaimNoLongerHeld(req.key));
  }

  /** The transfer, the allowance and the decision: the try block of decide. */
  method MoveMoney(store: Store, unique: bool, req: Request) returns (r: Result<Verdict, Detail>)
    requires FreshIdentities(store.entries, store.nextEntry)
    modifies store`accounts, store`entries, store`postings, store`nextEntry, store`envelopes, store`receipts,
        store`claims
    ensures FreshIdentities(store.entries, store.nextEntry) && old(store.nextEntry) <= store.nextEntry
    ensures var db := old(store.Tables());
            match PlanMoney(db, unique, db.accounts.Keys, req, old(store.nextEntry))
            case WillAbort(error) => r == Err(error)
            case WillRefuse(planned, code, detail) => Concluded(planned, req, Refuse(code, detail), r, store.Tables())
            case WillSettle(planned, entry) => Concluded(planned, req, Settle(entry), r, store.Tables())
  {
    hide Ledger.Post, Conclude;
    var posted := Ledger.PostEntry(store, unique, req.key, PaymentEntry, MovementsOf(req));
    match posted {
      case Ok(entry) =>
        var spent := ConsumeAllowance(store, req.device, PaymentOf(req).amountPaise);
        if !spent {
          return Err(AllowanceGone(req.device, PaymentOf(req).amountPaise));
        }
        r := WriteDecision(store, req, Settle(entry));
      case Err(NotEnough(v, balance, needs)) =>
        r := WriteDecision(store, req, Refuse(InsufficientFunds, Shortfall(v, balance, needs)));
      case Err(MissingAccount(v)) =>
        r := WriteDecision(store, req, Refuse(UnknownAccount, NoSuchAccount(v)));
      case Err(_) =>
        r := Err(DatabaseError);
    }
  }

  /** The outcome and the tables are those of concluding a plan. */
  predicate Concluded(planned: Database, req: Request, verdict: Verdict, r: Result<Verdict, Detail>, tables: Database) {
    match Conclude(planned, req, verdict)
    case Committed(db, v) => r == Ok(v) && tables == db
    case Aborted(error) => r == Err(error)
  }

  /** The checks in order, the money, the decision; the caller commits or rolls back. */
  method DecidePayment(store: Store, unique: bool, req: Request) returns (r: Result<Verdict, Detail>)
    requires FreshIdentities(store.entries, store.nextEntry)
    modifies store
    ensures FreshIdentities(store.entries, store.nextEntry) && old(store.nextEntry) <= store.nextEntry
    ensures match DecideAlone(old(store.Tables()), unique, req, old(store.nextEntry))
            case Committed(db, verdict) => r == Ok(verdict) && store.Tables() == db
            case Aborted(error) => r == Err(error)
  {
    hide Ledger.Post, Conclude, PlanMoney;
    var p := PaymentOf(req);
    var auth := Authorize(store.devices, store.envelopes, req.device, req.intent.publicKey, p.senderVpa);
    if auth.Denied? {
      r := WriteDecision(store, req, Refuse(auth.code, auth.detail));
      return;
    }
    var stale := FreshnessProblem(p, req.now);
    if stale.Some? {
      r := WriteDecision(store, req, Refuse(StaleOrFutureDated, stale.value));
      return;
    }
    var outcome := RecordSequenceNumber(store, SequenceOf(req), req.key);
    if outcome == ReusedForDifferentPayment {
      RevokeDevice(store, req.device, SequenceReusedForAnother(p.deviceSequence));
      r := WriteDecision(store, req, Refuse(SequenceReuse, DeviceReusedSequence(req.device, p.deviceSequence)));
      return;
    }
    var overLimit := LimitProblem(auth.limits, p.amountPaise);
    if overLimit.Some? {
      r := WriteDecision(store, req, Refuse(OfflineLimitExceeded, overLimit.value));
      return;
    }
    r := MoveMoney(store, unique, req);
  }

  /** withTransaction around decide, and the release that follows a failure. */
  method SettleInTransaction(w: World, store: Store, d: Delivery, intent: Intent, fate: CommitFate)
        returns (reply: Reply)
    requires FreshIdentities(store.entries, store.nextEntry)
    modifies store
    ensures FreshIdentities(store.entries, store.nextEntry) && old(store.nextEntry) <= store.nextEntry
    ensures (store.Tables(), reply) == Settlement(w, old(store.Tables()), d, intent, old(store.nextEntry), fate)
  {
    hide DecideAlone;
    var req := RequestFor(w, d, intent);
    var begun := store.Tables();
    var result := DecidePayment(store, w.unique, req);
    if result.Ok? && fate != NotApplied {
      if fate == Acknowledged {
        return Original(req.key, result.value);
      }
    } else {
      store.Restore(begun);
    }
    Claims.Release(store, req.key, req.holder);
    return TransientReply(req.key, if result.Err? then result.error else DatabaseError);
  }

  /** decideDelivery. */
  method DecideDelivery(w: World, store: Store, d: Delivery, fate: CommitFate) returns (reply: Reply)
    requires FreshIdentities(store.entries, store.nextEntry)
    modifies store
    ensures FreshIdentities(store.entries, store.nextEntry) && old(store.nextEntry) <= store.nextEntry
    ensures (store.Tables(), reply) == Deliver(w, old(store.Tables()), d, old(store.nextEntry), fate)
  {
    hide Settlement;
    var fp := w.fingerprint(d.wire);
    if fp in store.fingerprints && DecidedIn(store.claims, store.fingerprints[fp]) {
      var known := store.fingerprints[fp];
      return Replay(known, store.claims[known]);
    }
    var reading := w.open(d.wire, d.ring);
    if reading.Unopened? {
      return InvalidReply(reading.code, reading.detail);
    }
    var key := KeyOf(reading.intent);
    if fp !in store.fingerprints {
      store.fingerprints := store.fingerprints[fp := key];
    }
    var acquired := Acquire(store, key, d.holder, d.dbNow, DEFAULT_LEASE_MS);
    match acquired {
      case AlreadyDecided(claim) => return Replay(key, claim);
      case HeldElsewhere => return HeldReply(key);
      case Acquired(_) =>
        reply := SettleInTransaction(w, store, d, reading.intent, fate);
    }
  }
}
