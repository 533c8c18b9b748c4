/**
 * Settlement as it runs: any number of deliveries, each executing its statements one at a time
 * against one READ COMMITTED database, beside crashes, lost acknowledgements and operators.
 *
 * A transaction keeps the rows it has written to itself and holds their locks until it ends; a
 * statement that needs a row another transaction has locked waits. Statements outside a transaction
 * commit at once.
 */
module Protocol {
  import opened Bytes
  import opened Wrappers
  import opened Tables
  import opened Claims
  import opened Ingest
  import opened Registry
  import Instruction
  import KeyRing
  import Ledger
  import Receipts
  import Spec

  /** A row, or a value of a unique key, that a transaction has locked. */
  datatype Lock =
    | SequenceRow(q: SequenceNo)
    | DeviceRow(device: DeviceId)
    | AccountRow(vpa: Vpa)
    | JournalRow(key: Key)
    | IdentityOf(entry: nat)
    | EnvelopeRow(device: DeviceId)
    | ReceiptRow(key: Key)
    | ClaimRow(key: Key)

  /** The rows a transaction has written but not committed. */
  datatype Pending = Pending(
    sequences: map<SequenceNo, Key>,
    devices: map<DeviceId, Device>,
    accounts: map<Vpa, Account>,
    entries: map<nat, Entry>,
    postings: seq<Posting>,
    envelopes: map<DeviceId, OfflineEnvelope>,
    receipts: map<Key, Receipt>,
    claims: map<Key, Claim>)

  const NOTHING: Pending := Pending(map[], map[], map[], map[], [], map[], map[], map[])

  /** COMMIT: the written rows replace the committed ones. */
  function Merge(db: Database, p: Pending): Database {
    db.(sequences := db.sequences + p.sequences,
        devices := db.devices + p.devices,
        accounts := db.accounts + p.accounts,
        entries := db.entries + p.entries,
        postings := db.postings + p.postings,
        envelopes := db.envelopes + p.envelopes,
        receipts := db.receipts + p.receipts,
        claims := db.claims + p.claims)
  }

  /** Which way decide has gone. */
  datatype Path = ViaDenied | ViaStale | ViaReuse | ViaLimit | ViaMissing | ViaShort | ViaPaid

  /** The statement a delivery executes next. */
  datatype Pc =
    | LookingUp | Opening | Noting | Acquiring | Finding
    | Authorizing | Sequencing | ReadingSequence | Revoking
    | Selecting | LockingFirst | LockingSecond | Journaling | Debiting | Crediting | Consuming
    | Receipting | Marking | Committing
    | Releasing(error: Detail) | Done(reply: Reply) | Dead

  /**
   * An open transaction: what authorize read, the accounts in the snapshot of the locking SELECT,
   * the identity it drew, its verdict once it has one, and its writes and locks.
   */
  datatype Tx = Tx(
    auth: Authorization,
    path: Path,
    verdict: Verdict,
    visible: set<Vpa>,
    entry: nat,
    pending: Pending,
    locks: set<Lock>)

  const NO_TX: Tx := Tx(Denied(RetryLater, Blank), ViaDenied, Refuse(RetryLater, Blank), {}, 0, NOTHING, {})
  const NO_INTENT: Intent := Intent(Instruction.PaymentInstruction("", "", 0, "", 0, 0, 0), [])

  datatype InFlight = InFlight(
    wire: bytes,
    ring: KeyRing.Ring,
    now: int,
    pc: Pc,
    intent: Intent,
    holder: Option<Holder>,
    tx: Tx)

  /** What happened, in commit order. */
  datatype Event =
    | Decided(id: nat, req: Request, verdict: Verdict)
    | ByOperator(act: Spec.OperatorAct)

  /** In place of a delivery that has not arrived. */
  const NOT_HERE: InFlight := InFlight([], KeyRing.Ring(map[], 0), 0, Dead, NO_INTENT, None, NO_TX)

  /**
   * The service. `ring` holds the stored server keys; a delivery's ring is the one in the memory of the
   * process it was posted to, loaded then or earlier.
   */
  datatype State = State(
    db: Database,
    clock: int,
    nextEntry: nat,
    ring: KeyRing.Ring,
    holders: set<Holder>,
    deliveries: map<nat, InFlight>,
    log: seq<Event>)
  {
    function At(id: nat): InFlight {
      if id in deliveries then deliveries[id] else NOT_HERE
    }

    function With(id: nat, d: InFlight): State {
      this.(deliveries := deliveries[id := d])
    }
  }

  predicate InTx(pc: Pc) {
    !pc.LookingUp? && !pc.Opening? && !pc.Noting? && !pc.Acquiring? && !pc.Finding?
    && !pc.Releasing? && !pc.Done? && !pc.Dead?
  }

  predicate HasIntent(pc: Pc) {
    pc.Noting? || pc.Acquiring? || pc.Finding? || InTx(pc) || pc.Releasing?
  }

  function KeyIn(d: InFlight): Key {
    KeyOf(d.intent)
  }

  function HolderIn(d: InFlight): Holder {
    if d.holder.Some? then d.holder.value else ""
  }

  function ReqOf(w: World, d: InFlight): Request {
    Request(KeyOf(d.intent), HolderIn(d), d.intent, w.deviceIdOf(d.intent.publicKey), d.now)
  }

  // ---------------------------------------------------------------------------------------------
  // The statements of decide
  // ---------------------------------------------------------------------------------------------

  function First(req: Request): Vpa {
    Ledger.FirstLocked(PaymentOf(req).senderVpa, PaymentOf(req).receiverVpa)
  }

  function Second(req: Request): Vpa {
    Ledger.SecondLocked(PaymentOf(req).senderVpa, PaymentOf(req).receiverVpa)
  }

  /** The row the next statement must lock before it can run. */
  function Wants(w: World, db: Database, d: InFlight): Option<Lock> {
    var req := ReqOf(w, d);
    match d.pc
    case Sequencing => Some(SequenceRow(SequenceOf(req)))
    case Revoking => Some(DeviceRow(req.device))
    case LockingFirst => if First(req) in d.tx.visible then Some(AccountRow(First(req))) else None
    case LockingSecond => if Second(req) in d.tx.visible then Some(AccountRow(Second(req))) else None
    case Journaling => if w.unique then Some(JournalRow(req.key)) else None
    case Consuming => Some(EnvelopeRow(req.device))
    case Receipting => Some(ReceiptRow(req.key))
    case Marking => Some(ClaimRow(req.key))
    case _ => None
  }

  /** The transaction rolls back and the caller goes on to release the claim. */
  function RolledBack(d: InFlight, error: Detail): InFlight {
    d.(pc := Releasing(error), tx := NO_TX)
  }

  function Refusing(d: InFlight, tx: Tx, path: Path, code: Code, detail: Detail): InFlight {
    d.(pc := Receipting, tx := tx.(path := path, verdict := Refuse(code, detail)))
  }

  function AfterAuthorize(d: InFlight, req: Request, auth: Authorization): InFlight {
    var tx := d.tx.(auth := auth);
    match auth
    case Denied(code, detail) => Refusing(d, tx, ViaDenied, code, detail)
    case Allowed(_) =>
      match FreshnessProblem(PaymentOf(req), req.now)
      case Some(detail) => Refusing(d, tx, ViaStale, StaleOrFutureDated, detail)
      case None => d.(pc := Sequencing, tx := tx)
  }

  function AfterSequence(d: InFlight, req: Request, tx: Tx): InFlight {
    if tx.auth.Denied? then RolledBack(d, DatabaseError) else
    match LimitProblem(tx.auth.limits, PaymentOf(req).amountPaise)
    case Some(detail) => Refusing(d, tx, ViaLimit, OfflineLimitExceeded, detail)
    case None => d.(pc := Selecting, tx := tx)
  }

  function AfterLocking(db: Database, d: InFlight, req: Request, tx: Tx): InFlight {
    var p := PaymentOf(req);
    if First(req) !in tx.visible then Refusing(d, tx, ViaMissing, UnknownAccount, NoSuchAccount(First(req)))
    else if Second(req) !in tx.visible then Refusing(d, tx, ViaMissing, UnknownAccount, NoSuchAccount(Second(req)))
    else if p.senderVpa in db.accounts && Ledger.Overdrawn(db.accounts[p.senderVpa], -p.amountPaise) then
      Refusing(d, tx, ViaShort, InsufficientFunds,
          Shortfall(p.senderVpa, db.accounts[p.senderVpa].balance, p.amountPaise))
    else d.(pc := Journaling, tx := tx)
  }

  /** authorize, the sequence number and the revocation. */
  function Check(w: World, db: Database, d: InFlight): InFlight {
    var req, tx := ReqOf(w, d), d.tx;
    var q, number := SequenceOf(req), PaymentOf(req).deviceSequence;
    match d.pc
    case Authorizing => AfterAuthorize(d, req, AuthorizeRequest(db, req))
    case Sequencing =>
      if q in db.sequences then d.(pc := ReadingSequence)
      else AfterSequence(d, req, tx.(pending := tx.pending.(sequences := map[q := req.key]),
          locks := tx.locks + {SequenceRow(q)}))
    case ReadingSequence =>
      if Lookup(db.sequences, q) == Some(req.key) then AfterSequence(d, req, tx) else d.(pc := Revoking)
    case Revoking =>
      Refusing(d,
        tx.(pending := tx.pending.(devices := RevokedRow(db.devices, req.device, SequenceReusedForAnother(number))),
            locks := tx.locks + {DeviceRow(req.device)}),
        ViaReuse, SequenceReuse, DeviceReusedSequence(req.device, number))
    case _ => d
  }

  /** The row that a revocation writes, if there is one to write. */
  function RevokedRow(devices: map<DeviceId, Device>, device: DeviceId, reason: Detail): map<DeviceId, Device> {
    if device in devices then map[device := devices[device].(state := Revoked, revokedReason := Some(reason))]
    else map[]
  }

  /** The locking SELECT, the entry, its two postings and the allowance. */
  function Pay(w: World, db: Database, next: nat, d: InFlight): InFlight {
    var req, tx := ReqOf(w, d), d.tx;
    var p := PaymentOf(req);
    match d.pc
    case Selecting => d.(pc := LockingFirst, tx := tx.(visible := db.accounts.Keys))
    case LockingFirst => d.(pc := LockingSecond, tx := tx.(locks := tx.locks + IfSeen(tx, First(req))))
    case LockingSecond => AfterLocking(db, d, req, tx.(locks := tx.locks + IfSeen(tx, Second(req))))
    case Journaling =>
      if w.unique && KeyTaken(db.entries, req.key) then RolledBack(d, DatabaseError)
      else d.(pc := Debiting,
              tx := tx.(entry := next,
                        pending := tx.pending.(entries := map[next := Entry(req.key, PaymentEntry)]),
                        locks := tx.locks + {IdentityOf(next)} + if w.unique then {JournalRow(req.key)} else {}))
    case Debiting =>
      if Ledger.Move(db.accounts, Ledger.Movement(p.senderVpa, -p.amountPaise)).None? then RolledBack(d, DatabaseError)
      else d.(pc := Crediting,
              tx := tx.(pending := tx.pending.(
                accounts := map[p.senderVpa := MovedRow(db, p.senderVpa, -p.amountPaise)],
                postings := [Posting(tx.entry, p.senderVpa, -p.amountPaise)])))
    case Crediting =>
      if Ledger.Move(db.accounts, Ledger.Movement(p.receiverVpa, p.amountPaise)).None? then RolledBack(d, DatabaseError)
      else d.(pc := Consuming,
              tx := tx.(pending := tx.pending.(
                accounts := tx.pending.accounts[p.receiverVpa := MovedRow(db, p.receiverVpa, p.amountPaise)],
                postings := tx.pending.postings + [Posting(tx.entry, p.receiverVpa, p.amountPaise)])))
    case Consuming =>
      if Consume(db.envelopes, req.device, p.amountPaise).None? then
        RolledBack(d, AllowanceGone(req.device, p.amountPaise))
      else d.(pc := Receipting,
              tx := tx.(path := ViaPaid, verdict := Settle(tx.entry),
                        pending := tx.pending.(envelopes :=
                          map[req.device := SpentRow(db.envelopes, req.device, p.amountPaise)]),
                        locks := tx.locks + {EnvelopeRow(req.device)}))
    case _ => d
  }

  function IfSeen(tx: Tx, v: Vpa): set<Lock> {
    if v in tx.visible then {AccountRow(v)} else {}
  }

  function MovedRow(db: Database, v: Vpa, change: int): Account {
    Ledger.Changed(Ledger.RowOf(db.accounts, v), change)
  }

  /** The receipt and the claim. */
  function Record(w: World, db: Database, d: InFlight): InFlight {
    var req, tx := ReqOf(w, d), d.tx;
    match d.pc
    case Receipting =>
      if req.key in db.receipts then d.(pc := Marking)
      else d.(pc := Marking,
              tx := tx.(pending := tx.pending.(receipts := map[req.key := Receipts.ReceiptFor(tx.verdict)]),
                        locks := tx.locks + {ReceiptRow(req.key)}))
    case Marking =>
      if !HeldBy(db.claims, req.key, req.holder) then RolledBack(d, ClaimNoLongerHeld(req.key))
      else d.(pc := Committing,
              tx := tx.(pending := tx.pending.(claims := map[req.key := DecidedRow(req.holder, tx.verdict)]),
                        locks := tx.locks + {ClaimRow(req.key)}))
    case _ => d
  }

  predicate IsPaying(pc: Pc) {
    pc.Selecting? || pc.LockingFirst? || pc.LockingSecond? || pc.Journaling? || pc.Debiting? || pc.Crediting?
    || pc.Consuming?
  }

  predicate IsRecording(pc: Pc) {
    pc.Receipting? || pc.Marking?
  }

  /** One statement of decide, given the committed tables and the next identity. */
  function Execute(w: World, db: Database, next: nat, d: InFlight): InFlight {
    if IsPaying(d.pc) then Pay(w, db, next, d)
    else if IsRecording(d.pc) then Record(w, db, d)
    else Check(w, db, d)
  }

  // ---------------------------------------------------------------------------------------------
  // Steps of the whole system
  // ---------------------------------------------------------------------------------------------

  datatype Step =
    | Arrive(id: nat, wire: bytes, ring: KeyRing.Ring, now: int)
    | LookUp(id: nat)
    | OpenEnvelope(id: nat)
    | NoteFingerprint(id: nat, stored: bool)
    | TryAcquire(id: nat, holder: Holder, at: int)
    | FindClaim(id: nat)
    | Run(id: nat)
    | Commit(id: nat, acknowledged: bool)
    | Fail(id: nat)
    | Release(id: nat, performed: bool)
    | Crash(id: nat)
    | Tick(clock: int)
    | Operate(act: Spec.OperatorAct)
    | Rotate(ring: KeyRing.Ring)

  /** No transaction but `id` has locked the row, if one is wanted. */
  ghost predicate Free(s: State, want: Option<Lock>, id: nat) {
    want.Some? ==> forall i: nat :: i != id ==> want.value !in s.At(i).tx.locks
  }

  /** The rows an operator's transaction locks. */
  function OperatorLocks(act: Spec.OperatorAct): set<Lock> {
    match act
    case OpenAccount(vpa) => {AccountRow(vpa)}
    case Fund(reference, vpa, _) => {AccountRow(HOUSE_VPA), AccountRow(vpa),
        JournalRow(Instruction.TopUpKey(reference))}
    case RegisterDevice(device, vpa, _, _, _) => {DeviceRow(device), AccountRow(vpa), EnvelopeRow(device)}
    case TopUpAllowance(device, _) => {EnvelopeRow(device)}
    case RevokeDevice(device, _) => {DeviceRow(device)}
  }

  ghost predicate NoneLocked(s: State, locks: set<Lock>) {
    forall i: nat :: s.At(i).tx.locks !! locks
  }

  ghost predicate Enabled(w: World, s: State, step: Step) {
    match step
    case Arrive(id, _, ring, _) => id !in s.deliveries && KeyRing.Extends(s.ring, ring)
    case LookUp(id) => s.At(id).pc == LookingUp
    case OpenEnvelope(id) => s.At(id).pc == Opening
    case NoteFingerprint(id, _) => s.At(id).pc == Noting
    case TryAcquire(id, holder, at) =>
      && s.At(id).pc == Acquiring && holder !in s.holders && at <= s.clock
      && Free(s, Some(ClaimRow(KeyIn(s.At(id)))), id)
    case FindClaim(id) => s.At(id).pc == Finding
    case Run(id) => InTx(s.At(id).pc) && s.At(id).pc != Committing && Free(s, Wants(w, s.db, s.At(id)), id)
    case Commit(id, _) => s.At(id).pc == Committing
    case Fail(id) => InTx(s.At(id).pc)
    case Release(id, performed) =>
      s.At(id).pc.Releasing? && (performed ==> Free(s, Some(ClaimRow(KeyIn(s.At(id)))), id))
    case Crash(id) => id in s.deliveries && !s.At(id).pc.Done?
    case Tick(clock) => s.clock <= clock
    case Operate(act) => NoneLocked(s, OperatorLocks(act))
    case Rotate(ring) => KeyRing.Extends(ring, s.ring)
  }

  function LookedUp(w: World, db: Database, d: InFlight): InFlight {
    match KnownDecision(db, w.fingerprint(d.wire))
    case Some(key) => d.(pc := Done(Replay(key, db.claims[key])))
    case None => d.(pc := Opening)
  }

  function Unsealed(w: World, d: InFlight): InFlight {
    match w.open(d.wire, d.ring)
    case Unopened(code, detail) => d.(pc := Done(InvalidReply(code, detail)))
    case Opened(intent) => d.(pc := Noting, intent := intent)
  }

  function AfterAcquire(s: State, id: nat, holder: Holder, at: int): State {
    var d := s.At(id);
    var s' := s.(holders := s.holders + {holder});
    match Upsert(s.db.claims, KeyIn(d), holder, at, DEFAULT_LEASE_MS)
    case Some(claims) =>
      s'.With(id, d.(pc := Authorizing, holder := Some(holder), tx := NO_TX)).(db := s.db.(claims := claims))
    case None => s'.With(id, d.(pc := Finding))
  }

  function Found(claims: map<Key, Claim>, d: InFlight): InFlight {
    var key := KeyIn(d);
    d.(pc := Done(if DecidedIn(claims, key) then Replay(key, claims[key]) else HeldReply(key)))
  }

  /** COMMIT is applied; its acknowledgement may be lost, and then the caller sees an error. */
  function AfterCommit(d: InFlight, acknowledged: bool): InFlight {
    d.(tx := NO_TX,
       pc := if acknowledged then Done(Original(KeyIn(d), d.tx.verdict)) else Releasing(DatabaseError))
  }

  function ErrorOf(pc: Pc): Detail {
    if pc.Releasing? then pc.error else DatabaseError
  }

  function Operated(w: World, s: State, act: Spec.OperatorAct): State {
    match Spec.Operate(s.db, w.unique, act, s.nextEntry)
    case Some(db) => s.(db := db, nextEntry := s.nextEntry + 1, log := s.log + [ByOperator(act)])
    case None => s.(nextEntry := s.nextEntry + 1)
  }

  function Next(w: World, s: State, step: Step): State {
    match step
    case Arrive(id, wire, ring, now) => s.With(id, InFlight(wire, ring, now, LookingUp, NO_INTENT, None, NO_TX))
    case LookUp(id) => s.With(id, LookedUp(w, s.db, s.At(id)))
    case OpenEnvelope(id) => s.With(id, Unsealed(w, s.At(id)))
    case NoteFingerprint(id, stored) =>
      s.With(id, s.At(id).(pc := Acquiring)).(
        db := if stored then Noted(w, s.db, s.At(id).wire, KeyIn(s.At(id))) else s.db)
    case TryAcquire(id, holder, at) => AfterAcquire(s, id, holder, at)
    case FindClaim(id) => s.With(id, Found(s.db.claims, s.At(id)))
    case Run(id) =>
      s.With(id, Execute(w, s.db, s.nextEntry, s.At(id))).(
        nextEntry := if s.At(id).pc == Journaling then s.nextEntry + 1 else s.nextEntry)
    case Commit(id, acknowledged) =>
      s.With(id, AfterCommit(s.At(id), acknowledged)).(
        db := Merge(s.db, s.At(id).tx.pending),
        log := s.log + [Decided(id, ReqOf(w, s.At(id)), s.At(id).tx.verdict)])
    case Fail(id) => s.With(id, RolledBack(s.At(id), DatabaseError))
    case Release(id, performed) =>
      s.With(id, s.At(id).(pc := Done(TransientReply(KeyIn(s.At(id)), ErrorOf(s.At(id).pc))))).(
        db := if performed then s.db.(claims := Released(s.db.claims, KeyIn(s.At(id)), HolderIn(s.At(id)))) else s.db)
    case Crash(id) => s.With(id, s.At(id).(pc := Dead, tx := NO_TX))
    case Tick(clock) => s.(clock := clock)
    case Operate(act) => Operated(w, s, act)
    case Rotate(ring) => s.(ring := ring)
  }

  /** The delivery that takes this step. */
  function MoverOf(step: Step): Option<nat> {
    match step
    case Arrive(id, _, _, _) => Some(id)
    case LookUp(id) => Some(id)
    case OpenEnvelope(id) => Some(id)
    case NoteFingerprint(id, _) => Some(id)
    case TryAcquire(id, _, _) => Some(id)
    case FindClaim(id) => Some(id)
    case Run(id) => Some(id)
    case Commit(id, _) => Some(id)
    case Fail(id) => Some(id)
    case Release(id, _) => Some(id)
    case Crash(id) => Some(id)
    case _ => None
  }

  // ---------------------------------------------------------------------------------------------
  // Runs
  // ---------------------------------------------------------------------------------------------

  predicate Initial(s: State) {
    s.db == EMPTY_DATABASE && s.nextEntry == 1 && s.holders == {} && s.deliveries == map[] && s.log == []
  }

  /** States and the steps between them. Where nothing more happens, the clock ticks. */
  datatype Run = RunOf(state: nat -> State, step: nat -> Step) {
    /** Where step n leads. */
    function After(n: nat): State {
      state(n + 1)
    }
  }

  ghost predicate Follows(w: World, r: Run, n: nat) {
    Enabled(w, r.state(n), r.step(n)) && r.After(n) == Next(w, r.state(n), r.step(n))
  }

  ghost predicate IsRun(w: World, r: Run) {
    Initial(r.state(0)) && forall n: nat :: Follows(w, r, n)
  }
}
