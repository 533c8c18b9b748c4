/**
 * Interleaved statements amount to one atomic decision.
 *
 * What a transaction has read under a lock, or read of a row that never changes again, is still true
 * of the committed tables at its commit. So a commit is exactly the atomic `Decide` on the tables as
 * they are at that moment, given the two early reads no lock protects: authorize, and which accounts
 * the locking SELECT could see.
 */
module Isolation {
  import opened Wrappers
  import opened Tables
  import opened Claims
  import opened Ingest
  import opened Registry
  import opened Protocol
  import Consistency
  import Instruction
  import Ledger
  import Receipts

  // ---------------------------------------------------------------------------------------------
  // What a transaction knows at each statement
  // ---------------------------------------------------------------------------------------------

  /** authorize allowed the payment, it is fresh, and the device it read still exists. */
  ghost predicate PassedChecks(db: Database, req: Request, auth: Authorization) {
    && auth.Allowed? && auth.limits.device == req.device
    && req.device in db.devices && req.device in db.envelopes
    && FreshnessProblem(PaymentOf(req), req.now) == None
  }

  /** The sequence number is this payment's, newly written or found to be so. */
  ghost predicate OwnsSequence(db: Database, req: Request, tx: Tx) {
    var q := SequenceOf(req);
    if q in db.sequences then db.sequences[q] == req.key && tx.pending.sequences == map[]
    else tx.pending.sequences == map[q := req.key] && SequenceRow(q) in tx.locks
  }

  ghost predicate PassedLimits(db: Database, req: Request, tx: Tx) {
    && PassedChecks(db, req, tx.auth) && OwnsSequence(db, req, tx)
    && LimitProblem(tx.auth.limits, PaymentOf(req).amountPaise) == None
  }

  /** Both parties were visible and are locked. */
  ghost predicate LockedParties(db: Database, req: Request, tx: Tx) {
    var p := PaymentOf(req);
    && tx.visible <= db.accounts.Keys
    && p.senderVpa in tx.visible && p.receiverVpa in tx.visible
    && AccountRow(p.senderVpa) in tx.locks && AccountRow(p.receiverVpa) in tx.locks
  }

  ghost predicate IsShort(db: Database, req: Request) {
    Ledger.Overdrawn(Ledger.RowOf(db.accounts, PaymentOf(req).senderVpa), -PaymentOf(req).amountPaise)
  }

  ghost predicate CanPay(db: Database, req: Request, tx: Tx) {
    PassedLimits(db, req, tx) && LockedParties(db, req, tx) && !IsShort(db, req)
  }

  ghost predicate HasEntry(w: World, db: Database, req: Request, tx: Tx) {
    && tx.entry !in db.entries && IdentityOf(tx.entry) in tx.locks
    && (w.unique ==> JournalRow(req.key) in tx.locks && !KeyTaken(db.entries, req.key))
    && tx.pending.entries == map[tx.entry := Entry(req.key, PaymentEntry)]
  }

  function DebitedRow(db: Database, req: Request): map<Vpa, Account> {
    map[PaymentOf(req).senderVpa := MovedRow(db, PaymentOf(req).senderVpa, -PaymentOf(req).amountPaise)]
  }

  function BothRows(db: Database, req: Request): map<Vpa, Account> {
    DebitedRow(db, req)[PaymentOf(req).receiverVpa :=
        MovedRow(db, PaymentOf(req).receiverVpa, PaymentOf(req).amountPaise)]
  }

  ghost predicate Transferred(w: World, db: Database, req: Request, tx: Tx) {
    var p := PaymentOf(req);
    && CanPay(db, req, tx) && HasEntry(w, db, req, tx)
    && tx.pending.accounts == BothRows(db, req)
    && tx.pending.postings == Ledger.TransferPostings(p.senderVpa, p.receiverVpa, p.amountPaise, tx.entry)
  }

  /** What is written before the receipt and the claim. */
  function BodyOf(tx: Tx): Pending {
    tx.pending.(receipts := map[], claims := map[])
  }

  function JustSequence(tx: Tx): Pending {
    NOTHING.(sequences := tx.pending.sequences)
  }

  /** What led to a refusal before any money was looked at, still true of the committed tables. */
  ghost predicate EarlyReasons(db: Database, req: Request, tx: Tx) {
    var p, q := PaymentOf(req), SequenceOf(req);
    match tx.path
    case ViaDenied =>
      && tx.auth.Denied? && tx.auth.code != SequenceReuse && tx.auth.code != RetryLater
      && !Spec.UsesNumber(tx.auth.code)
      && tx.verdict == Refuse(tx.auth.code, tx.auth.detail) && BodyOf(tx) == NOTHING
    case ViaStale =>
      && tx.auth.Allowed? && tx.auth.limits.device == req.device && req.device in db.envelopes
      && FreshnessProblem(p, req.now).Some?
      && tx.verdict == Refuse(StaleOrFutureDated, FreshnessProblem(p, req.now).value) && BodyOf(tx) == NOTHING
    case ViaReuse =>
      && PassedChecks(db, req, tx.auth)
      && q in db.sequences && db.sequences[q] != req.key && DeviceRow(req.device) in tx.locks
      && tx.verdict == Refuse(SequenceReuse, DeviceReusedSequence(req.device, p.deviceSequence))
      && BodyOf(tx) == NOTHING.(devices :=
           RevokedRow(db.devices, req.device, SequenceReusedForAnother(p.deviceSequence)))
    case ViaLimit =>
      && PassedChecks(db, req, tx.auth) && OwnsSequence(db, req, tx) && BodyOf(tx) == JustSequence(tx)
      && LimitProblem(tx.auth.limits, p.amountPaise).Some?
      && tx.verdict == Refuse(OfflineLimitExceeded, LimitProblem(tx.auth.limits, p.amountPaise).value)
    case _ => false
  }

  /** What led to the verdict once the sequence number and the limits were passed. */
  ghost predicate MoneyReasons(w: World, db: Database, req: Request, tx: Tx) {
    var p := PaymentOf(req);
    match tx.path
    case ViaMissing =>
      && PassedLimits(db, req, tx) && BodyOf(tx) == JustSequence(tx) && tx.visible <= db.accounts.Keys
      && (First(req) !in tx.visible || Second(req) !in tx.visible)
      && tx.verdict == Refuse(UnknownAccount,
          NoSuchAccount(if First(req) !in tx.visible then First(req) else Second(req)))
    case ViaShort =>
      && PassedLimits(db, req, tx) && BodyOf(tx) == JustSequence(tx) && LockedParties(db, req, tx)
      && IsShort(db, req)
      && tx.verdict == Refuse(InsufficientFunds,
          Shortfall(p.senderVpa, Ledger.RowOf(db.accounts, p.senderVpa).balance, p.amountPaise))
    case ViaPaid =>
      && Transferred(w, db, req, tx) && tx.verdict == Settle(tx.entry)
      && EnvelopeRow(req.device) in tx.locks && db.envelopes[req.device].allowance >= p.amountPaise
      && tx.pending.envelopes == map[req.device := SpentRow(db.envelopes, req.device, p.amountPaise)]
      && tx.pending.devices == map[]
    case _ => false
  }

  /** What led to the verdict. */
  ghost predicate Reasons(w: World, db: Database, req: Request, tx: Tx) {
    EarlyReasons(db, req, tx) || MoneyReasons(w, db, req, tx)
  }

  ghost predicate HasReceipt(db: Database, req: Request, tx: Tx) {
    if req.key in db.receipts then tx.pending.receipts == map[]
    else tx.pending.receipts == map[req.key := Receipts.ReceiptFor(tx.verdict)] && ReceiptRow(req.key) in tx.locks
  }

  ghost predicate HasDecision(db: Database, req: Request, tx: Tx) {
    && HeldBy(db.claims, req.key, req.holder) && ClaimRow(req.key) in tx.locks
    && tx.pending.claims == map[req.key := DecidedRow(req.holder, tx.verdict)]
  }

  ghost predicate CheckFacts(db: Database, pc: Pc, req: Request, tx: Tx) {
    match pc
    case Authorizing => tx == NO_TX
    case Sequencing => PassedChecks(db, req, tx.auth) && tx.pending == NOTHING
    case ReadingSequence => PassedChecks(db, req, tx.auth) && tx.pending == NOTHING && SequenceOf(req) in db.sequences
    case Revoking =>
      PassedChecks(db, req, tx.auth) && tx.pending == NOTHING
      && SequenceOf(req) in db.sequences && db.sequences[SequenceOf(req)] != req.key
    case _ => true
  }

  ghost predicate PayFacts(w: World, db: Database, pc: Pc, req: Request, tx: Tx) {
    && PassedLimits(db, req, tx)
    && match pc
       case Selecting => tx.pending == JustSequence(tx)
       case LockingFirst => tx.pending == JustSequence(tx) && tx.visible <= db.accounts.Keys
       case LockingSecond =>
         tx.pending == JustSequence(tx) && tx.visible <= db.accounts.Keys && IfSeen(tx, First(req)) <= tx.locks
       case Journaling => CanPay(db, req, tx) && tx.pending == JustSequence(tx)
       case Debiting =>
         CanPay(db, req, tx) && HasEntry(w, db, req, tx)
         && tx.pending == JustSequence(tx).(entries := tx.pending.entries)
       case Crediting =>
         && CanPay(db, req, tx) && HasEntry(w, db, req, tx)
         && tx.pending == JustSequence(tx).(entries := tx.pending.entries, accounts := DebitedRow(db, req),
              postings := [Posting(tx.entry, PaymentOf(req).senderVpa, -PaymentOf(req).amountPaise)])
       case Consuming =>
         && Transferred(w, db, req, tx)
         && tx.pending == JustSequence(tx).(entries := tx.pending.entries, accounts := tx.pending.accounts,
              postings := tx.pending.postings)
       case _ => true
  }

  ghost predicate RecordFacts(w: World, db: Database, pc: Pc, req: Request, tx: Tx) {
    && Reasons(w, db, req, tx)
    && (if pc.Receipting? then tx.pending.receipts == map[] else HasReceipt(db, req, tx))
    && (if pc.Committing? then HasDecision(db, req, tx) else tx.pending.claims == map[])
  }

  /** All a transaction relies on when it executes its next statement. */
  ghost predicate Facts(w: World, db: Database, pc: Pc, req: Request, tx: Tx) {
    if IsPaying(pc) then PayFacts(w, db, pc, req, tx)
    else if IsRecording(pc) || pc.Committing? then RecordFacts(w, db, pc, req, tx)
    else CheckFacts(db, pc, req, tx)
  }

  // ---------------------------------------------------------------------------------------------
  // Nobody else can change what it knows
  // ---------------------------------------------------------------------------------------------

  /** The committed row behind a lock is the same in both databases. */
  ghost predicate Kept(db: Database, db': Database, l: Lock) {
    match l
    case SequenceRow(q) => Lookup(db.sequences, q) == Lookup(db'.sequences, q)
    case DeviceRow(d) => Lookup(db.devices, d) == Lookup(db'.devices, d)
    case AccountRow(v) => Lookup(db.accounts, v) == Lookup(db'.accounts, v)
    case JournalRow(k) => KeyTaken(db.entries, k) == KeyTaken(db'.entries, k)
    case IdentityOf(e) => (e in db.entries) == (e in db'.entries)
    case EnvelopeRow(d) => Lookup(db.envelopes, d) == Lookup(db'.envelopes, d)
    case ReceiptRow(k) => Lookup(db.receipts, k) == Lookup(db'.receipts, k)
    case ClaimRow(k) => Lookup(db.claims, k) == Lookup(db'.claims, k)
  }

  ghost predicate AllKept(db: Database, db': Database, locks: set<Lock>) {
    forall l :: l in locks ==> Kept(db, db', l)
  }

  /** Rows that are never deleted, and the sequence rows and receipts that are never changed. */
  ghost predicate Grows(db: Database, db': Database) {
    && (forall q :: q in db.sequences ==> q in db'.sequences && db'.sequences[q] == db.sequences[q])
    && db.receipts.Keys <= db'.receipts.Keys
    && db.accounts.Keys <= db'.accounts.Keys
    && db.devices.Keys <= db'.devices.Keys
    && db.envelopes.Keys <= db'.envelopes.Keys
  }

  lemma KeptLimits(db: Database, db': Database, req: Request, tx: Tx)
    requires AllKept(db, db', tx.locks) && Grows(db, db')
    ensures PassedChecks(db, req, tx.auth) ==> PassedChecks(db', req, tx.auth)
    ensures OwnsSequence(db, req, tx) ==> OwnsSequence(db', req, tx)
  {
    assert SequenceRow(SequenceOf(req)) in tx.locks ==> Kept(db, db', SequenceRow(SequenceOf(req)));
  }

  lemma KeptParties(db: Database, db': Database, req: Request, tx: Tx)
    requires LockedParties(db, req, tx) && AllKept(db, db', tx.locks) && Grows(db, db')
    ensures LockedParties(db', req, tx) && (IsShort(db', req) <==> IsShort(db, req))
    ensures Ledger.RowOf(db'.accounts, PaymentOf(req).senderVpa) == Ledger.RowOf(db.accounts, PaymentOf(req).senderVpa)
    ensures DebitedRow(db', req) == DebitedRow(db, req) && BothRows(db', req) == BothRows(db, req)
  {
    assert Kept(db, db', AccountRow(PaymentOf(req).senderVpa)) && Kept(db, db', AccountRow(PaymentOf(req).receiverVpa));
  }

  lemma KeptEntry(w: World, db: Database, db': Database, req: Request, tx: Tx)
    requires HasEntry(w, db, req, tx) && AllKept(db, db', tx.locks)
    ensures HasEntry(w, db', req, tx)
  {
    assert Kept(db, db', IdentityOf(tx.entry));
    assert w.unique ==> Kept(db, db', JournalRow(req.key));
  }

  lemma KeptReasons(w: World, db: Database, db': Database, req: Request, tx: Tx)
    requires Reasons(w, db, req, tx) && AllKept(db, db', tx.locks) && Grows(db, db')
    ensures Reasons(w, db', req, tx)
  {
    hide FreshnessProblem, LimitProblem, IsShort, DebitedRow, BothRows, HasEntry;
    KeptLimits(db, db', req, tx);
    if LockedParties(db, req, tx) {
      KeptParties(db, db', req, tx);
    }
    if HasEntry(w, db, req, tx) {
      KeptEntry(w, db, db', req, tx);
    }
    assert DeviceRow(req.device) in tx.locks ==> Kept(db, db', DeviceRow(req.device));
    assert EnvelopeRow(req.device) in tx.locks ==> Kept(db, db', EnvelopeRow(req.device));
  }

  lemma KeptWhilePaying(w: World, db: Database, db': Database, pc: Pc, req: Request, tx: Tx)
    requires PayFacts(w, db, pc, req, tx) && AllKept(db, db', tx.locks) && Grows(db, db')
    ensures PayFacts(w, db', pc, req, tx)
  {
    hide FreshnessProblem, LimitProblem, IsShort, DebitedRow, BothRows, HasEntry, PassedChecks, OwnsSequence;
    KeptLimits(db, db', req, tx);
    if LockedParties(db, req, tx) {
      KeptParties(db, db', req, tx);
    }
    if HasEntry(w, db, req, tx) {
      KeptEntry(w, db, db', req, tx);
    }
  }

  lemma KeptWhileRecording(w: World, db: Database, db': Database, pc: Pc, req: Request, tx: Tx)
    requires RecordFacts(w, db, pc, req, tx) && AllKept(db, db', tx.locks) && Grows(db, db')
    ensures RecordFacts(w, db', pc, req, tx)
  {
    KeptReasons(w, db, db', req, tx);
    hide Reasons, EarlyReasons, MoneyReasons;
    assert ReceiptRow(req.key) in tx.locks ==> Kept(db, db', ReceiptRow(req.key));
    assert ClaimRow(req.key) in tx.locks ==> Kept(db, db', ClaimRow(req.key));
  }

  /** A transaction's facts survive any change to rows it has not locked. */
  lemma FactsAreStable(w: World, db: Database, db': Database, pc: Pc, req: Request, tx: Tx)
    requires Facts(w, db, pc, req, tx) && AllKept(db, db', tx.locks) && Grows(db, db')
    ensures Facts(w, db', pc, req, tx)
  {
    hide PayFacts, RecordFacts, AllKept;
    if IsPaying(pc) {
      KeptWhilePaying(w, db, db', pc, req, tx);
    } else if IsRecording(pc) || pc.Committing? {
      KeptWhileRecording(w, db, db', pc, req, tx);
    } else {
      KeptLimits(db, db', req, tx);
    }
  }

  /** Every written row is locked by its writer. */
  ghost predicate Covered(w: World, db: Database, tx: Tx) {
    && (forall q :: q in tx.pending.sequences ==> SequenceRow(q) in tx.locks && q !in db.sequences)
    && (forall d :: d in tx.pending.devices ==> DeviceRow(d) in tx.locks)
    && (forall v :: v in tx.pending.accounts ==> AccountRow(v) in tx.locks)
    && (forall e :: e in tx.pending.entries ==>
          && IdentityOf(e) in tx.locks && e !in db.entries
          && (w.unique ==> JournalRow(tx.pending.entries[e].key) in tx.locks))
    && (forall d :: d in tx.pending.envelopes ==> EnvelopeRow(d) in tx.locks)
    && (forall k :: k in tx.pending.receipts ==> ReceiptRow(k) in tx.locks)
    && (forall k :: k in tx.pending.claims ==> ClaimRow(k) in tx.locks)
  }

  lemma CommitIsCovered(w: World, db: Database, req: Request, tx: Tx)
    requires Facts(w, db, Committing, req, tx)
    ensures Covered(w, db, tx)
  {
    hide FreshnessProblem, LimitProblem, IsShort, MovedRow, DecidedRow, Receipts.ReceiptFor;
    assert EarlyReasons(db, req, tx) ==> BodyOf(tx) == NOTHING || tx.path.ViaReuse? || tx.path.ViaLimit?;
  }

  /** So a commit changes no row that another transaction has locked. */
  lemma CommitKeepsOthersRows(w: World, db: Database, tx: Tx, locks: set<Lock>)
    requires Covered(w, db, tx) && tx.locks !! locks
    requires w.unique || forall k :: JournalRow(k) !in locks
    ensures AllKept(db, Merge(db, tx.pending), locks)
    ensures Grows(db, Merge(db, tx.pending))
  {
    var db' := Merge(db, tx.pending);
    hide KeyTaken;
    forall l | l in locks
      ensures Kept(db, db', l)
    {
      assert l !in tx.locks;
      if l.JournalRow? {
        KeyTakenAfter(db.entries, tx.pending.entries, l.key);
      }
    }
  }

  lemma KeyTakenAfter(entries: map<nat, Entry>, added: map<nat, Entry>, k: Key)
    requires forall e :: e in added ==> e !in entries && added[e].key != k
    ensures KeyTaken(entries + added, k) == KeyTaken(entries, k)
  {
    if KeyTaken(entries, k) {
      var e :| e in entries && entries[e].key == k;
      assert e in entries + added && (entries + added)[e] == entries[e];
    }
  }

  // ---------------------------------------------------------------------------------------------
  // Each statement establishes what the next one relies on
  // ---------------------------------------------------------------------------------------------

  lemma AfterAuthorizing(w: World, db: Database, d: InFlight)
    requires d.pc == Authorizing && d.tx == NO_TX && db.devices.Keys == db.envelopes.Keys
    ensures var d' := Check(w, db, d); Facts(w, db, d'.pc, ReqOf(w, d), d'.tx)
  {
    hide PayFacts, MoneyReasons, AfterSequence, FreshnessProblem, LimitProblem;
  }

  lemma AfterOwningSequence(w: World, db: Database, d: InFlight, tx: Tx)
    requires PassedChecks(db, ReqOf(w, d), tx.auth) && OwnsSequence(db, ReqOf(w, d), tx)
    requires tx.pending == JustSequence(tx)
    ensures var d' := AfterSequence(d, ReqOf(w, d), tx); Facts(w, db, d'.pc, ReqOf(w, d), d'.tx)
  {
    hide MoneyReasons, FreshnessProblem, LimitProblem;
  }

  lemma AfterChecking(w: World, db: Database, d: InFlight)
    requires d.pc == Sequencing || d.pc == ReadingSequence || d.pc == Revoking
    requires CheckFacts(db, d.pc, ReqOf(w, d), d.tx)
    ensures var d' := Check(w, db, d); Facts(w, db, d'.pc, ReqOf(w, d), d'.tx)
  {
    hide AfterSequence, PayFacts, MoneyReasons, FreshnessProblem, AfterAuthorize;
    var req := ReqOf(w, d);
    var q := SequenceOf(req);
    if d.pc == Sequencing && q !in db.sequences {
      AfterOwningSequence(w, db, d,
        d.tx.(pending := d.tx.pending.(sequences := map[q := req.key]), locks := d.tx.locks + {SequenceRow(q)}));
    } else if d.pc == ReadingSequence && db.sequences[q] == req.key {
      AfterOwningSequence(w, db, d, d.tx);
    }
  }

  lemma AfterLocks(w: World, db: Database, next: nat, d: InFlight)
    requires d.pc == Selecting || d.pc == LockingFirst || d.pc == LockingSecond
    requires PayFacts(w, db, d.pc, ReqOf(w, d), d.tx)
    ensures var d' := Pay(w, db, next, d); Facts(w, db, d'.pc, ReqOf(w, d), d'.tx)
  {
    hide PassedChecks, FreshnessProblem, LimitProblem, EarlyReasons, Ledger.Move, Consume, KeyTaken;
  }

  /** No customer is in debt. */
  ghost predicate NobodyOverdrawn(db: Database) {
    forall v :: !Ledger.Overdrawn(Ledger.RowOf(db.accounts, v), 0)
  }

  /** The CHECK on the payer's balance holds, because the pre-check was made under the same lock. */
  lemma AfterDebiting(w: World, db: Database, next: nat, d: InFlight)
    requires d.pc == Debiting && PayFacts(w, db, d.pc, ReqOf(w, d), d.tx) && 0 < d.intent.instruction.amountPaise
    ensures var d' := Pay(w, db, next, d); d'.pc == Crediting && PayFacts(w, db, d'.pc, ReqOf(w, d), d'.tx)
  {
    hide PassedChecks, LimitProblem, Consume, KeyTaken, AfterLocking, BothRows;
  }

  lemma AfterCrediting(w: World, db: Database, next: nat, d: InFlight)
    requires d.pc == Crediting && PayFacts(w, db, d.pc, ReqOf(w, d), d.tx) && 0 < d.intent.instruction.amountPaise
    requires NobodyOverdrawn(db)
    ensures var d' := Pay(w, db, next, d); d'.pc == Consuming && PayFacts(w, db, d'.pc, ReqOf(w, d), d'.tx)
  {
    hide PassedChecks, LimitProblem, Consume, KeyTaken, AfterLocking, IsShort;
    assert !Ledger.Overdrawn(Ledger.RowOf(db.accounts, d.intent.instruction.receiverVpa), 0);
  }

  lemma AfterJournaling(w: World, db: Database, next: nat, d: InFlight)
    requires d.pc == Journaling && PayFacts(w, db, d.pc, ReqOf(w, d), d.tx) && next !in db.entries
    ensures var d' := Pay(w, db, next, d); Facts(w, db, d'.pc, ReqOf(w, d), d'.tx)
  {
    hide PassedChecks, FreshnessProblem, LimitProblem, Consume, KeyTaken, AfterLocking, Ledger.Move, RecordFacts,
      IsShort;
  }

  lemma AfterConsuming(w: World, db: Database, next: nat, d: InFlight)
    requires d.pc == Consuming && PayFacts(w, db, d.pc, ReqOf(w, d), d.tx)
    ensures var d' := Pay(w, db, next, d); Facts(w, db, d'.pc, ReqOf(w, d), d'.tx)
  {
    hide PassedChecks, FreshnessProblem, LimitProblem, KeyTaken, AfterLocking, Ledger.Move, EarlyReasons, IsShort,
      DebitedRow, BothRows;
  }

  /** The same but for the receipt, the claim and more locks. */
  predicate SameBody(a: Tx, b: Tx) {
    && a.auth == b.auth && a.path == b.path && a.verdict == b.verdict && a.visible == b.visible && a.entry == b.entry
    && BodyOf(a) == BodyOf(b) && a.locks <= b.locks
  }

  lemma MoreLocksKeepReasons(w: World, db: Database, req: Request, a: Tx, b: Tx)
    requires Reasons(w, db, req, a) && SameBody(a, b)
    ensures Reasons(w, db, req, b)
  {
    hide PassedChecks, FreshnessProblem, LimitProblem, IsShort, BothRows, RevokedRow;
    assert a.pending.sequences == BodyOf(a).sequences && b.pending.sequences == BodyOf(b).sequences;
    if EarlyReasons(db, req, a) {
      hide MoneyReasons;
      assert EarlyReasons(db, req, b);
    } else {
      assert a.pending.accounts == BodyOf(a).accounts && b.pending.accounts == BodyOf(b).accounts;
      assert a.pending.entries == BodyOf(a).entries && b.pending.entries == BodyOf(b).entries;
      assert MoneyReasons(w, db, req, b);
    }
  }

  lemma AfterRecording(w: World, db: Database, d: InFlight)
    requires IsRecording(d.pc) && RecordFacts(w, db, d.pc, ReqOf(w, d), d.tx)
    ensures var d' := Record(w, db, d); Facts(w, db, d'.pc, ReqOf(w, d), d'.tx)
  {
    hide Reasons, DecidedRow, Receipts.ReceiptFor;
    if InTx(Record(w, db, d).pc) {
      MoreLocksKeepReasons(w, db, ReqOf(w, d), d.tx, Record(w, db, d).tx);
    }
  }

  /** Each statement establishes what the next one relies on. */
  lemma StatementKeepsFacts(w: World, db: Database, next: nat, d: InFlight)
    requires InTx(d.pc) && d.pc != Committing && Instruction.WellFormed(d.intent.instruction)
    requires Facts(w, db, d.pc, ReqOf(w, d), d.tx) && next !in db.entries && db.devices.Keys == db.envelopes.Keys
    requires NobodyOverdrawn(db)
    ensures var d' := Execute(w, db, next, d); Facts(w, db, d'.pc, ReqOf(w, d), d'.tx)
  {
    hide PayFacts, RecordFacts, Pay, Record, Check, PassedChecks;
    if d.pc == Selecting || d.pc == LockingFirst || d.pc == LockingSecond {
      AfterLocks(w, db, next, d);
    } else if d.pc == Journaling {
      AfterJournaling(w, db, next, d);
    } else if d.pc == Debiting {
      AfterDebiting(w, db, next, d);
    } else if d.pc == Crediting {
      AfterCrediting(w, db, next, d);
    } else if d.pc == Consuming {
      AfterConsuming(w, db, next, d);
    } else if IsRecording(d.pc) {
      AfterRecording(w, db, d);
    } else if d.pc == Authorizing {
      AfterAuthorizing(w, db, d);
    } else {
      AfterChecking(w, db, d);
    }
  }

  // ---------------------------------------------------------------------------------------------
  // A commit is one atomic decision
  // ---------------------------------------------------------------------------------------------

  /** What the atomic decision would have planned, by what the transaction has written. */
  function PlanOf(db: Database, tx: Tx): Plan {
    match tx.verdict
    case Settle(entry) => WillSettle(Merge(db, BodyOf(tx)), entry)
    case Refuse(code, detail) => WillRefuse(Merge(db, BodyOf(tx)), code, detail)
  }

  function Recorded(db: Database, tx: Tx): Database {
    db.(sequences := db.sequences + tx.pending.sequences)
  }

  lemma SequencePlan(db: Database, req: Request, tx: Tx)
    requires OwnsSequence(db, req, tx)
    ensures RecordSequence(db.sequences, SequenceOf(req), req.key).1 != ReusedForDifferentPayment
    ensures RecordSequence(db.sequences, SequenceOf(req), req.key).0 == db.sequences + tx.pending.sequences
  {
    var q := SequenceOf(req);
    assert q !in db.sequences ==> db.sequences[q := req.key] == db.sequences + map[q := req.key];
    assert q in db.sequences ==> db.sequences + map[] == db.sequences;
  }

  lemma PlusNothing<K, V>(m: map<K, V>)
    ensures m + map[] == m
  {}

  lemma PlusOne<K, V>(m: map<K, V>, k: K, v: V)
    ensures m + map[k := v] == m[k := v]
  {}

  lemma RefusalMerges(db: Database, p: Pending)
    requires p == NOTHING.(sequences := p.sequences, devices := p.devices)
    ensures Merge(db, p) == db.(sequences := db.sequences + p.sequences, devices := db.devices + p.devices)
  {
    PlusNothing(db.accounts);
    PlusNothing(db.entries);
    PlusNothing(db.envelopes);
    PlusNothing(db.receipts);
    PlusNothing(db.claims);
  }

  function BothPaid(db: Database, req: Request): map<Vpa, Account> {
    Ledger.Paid(db.accounts, PaymentOf(req).senderVpa, PaymentOf(req).receiverVpa, PaymentOf(req).amountPaise)
  }

  /** The rows written one by one are those the atomic transfer writes. */
  lemma PaymentMerges(db: Database, req: Request, tx: Tx)
    requires PaymentOf(req).senderVpa != PaymentOf(req).receiverVpa
    requires tx.pending.devices == map[] && tx.pending.accounts == BothRows(db, req)
    requires tx.pending.entries == map[tx.entry := Entry(req.key, PaymentEntry)]
    requires tx.pending.envelopes == map[req.device := SpentRow(db.envelopes, req.device, PaymentOf(req).amountPaise)]
    ensures Merge(db, BodyOf(tx)) == PaidNow(db, req, tx)
  {
    var p := PaymentOf(req);
    PlusNothing(db.devices);
    PlusNothing(db.receipts);
    PlusNothing(db.claims);
    PlusOne(db.entries, tx.entry, Entry(req.key, PaymentEntry));
    PlusOne(db.envelopes, req.device, SpentRow(db.envelopes, req.device, p.amountPaise));
    assert db.accounts + BothRows(db, req) == BothPaid(db, req);
  }

  /** The tables once the payment is made. */
  function PaidNow(db: Database, req: Request, tx: Tx): Database {
    Recorded(db, tx).(
      accounts := BothPaid(db, req),
      entries := db.entries[tx.entry := Entry(req.key, PaymentEntry)],
      postings := db.postings + tx.pending.postings,
      envelopes := db.envelopes[req.device := SpentRow(db.envelopes, req.device, PaymentOf(req).amountPaise)])
  }

  lemma EarlyPlan(w: World, db: Database, req: Request, tx: Tx, entry: nat)
    requires EarlyReasons(db, req, tx)
    ensures MakePlan(db, w.unique, tx.visible, req, tx.auth, entry) == PlanOf(db, tx)
  {
    hide Merge, FreshnessProblem, LimitProblem, PlanMoney;
    RefusalMerges(db, BodyOf(tx));
    PlusNothing(db.sequences);
    PlusNothing(db.devices);
    if tx.path.ViaReuse? {
      PlusOne(db.devices, req.device, db.devices[req.device].(state := Revoked,
          revokedReason := Some(SequenceReusedForAnother(PaymentOf(req).deviceSequence))));
    } else if tx.path.ViaLimit? {
      SequencePlan(db, req, tx);
    }
  }

  /** Past the sequence number and the limits, the plan is about the money. */
  lemma PlanPastLimits(w: World, db: Database, req: Request, tx: Tx, entry: nat)
    requires PassedLimits(db, req, tx)
    ensures MakePlan(db, w.unique, tx.visible, req, tx.auth, entry)
            == PlanMoney(Recorded(db, tx), w.unique, tx.visible, req, entry)
  {
    hide PlanMoney, FreshnessProblem, LimitProblem;
    SequencePlan(db, req, tx);
  }

  /** The payment that the atomic decision would make now. */
  lemma PaymentNow(w: World, db: Database, req: Request, tx: Tx)
    requires MoneyReasons(w, db, req, tx) && tx.path == ViaPaid
    requires Instruction.WellFormed(PaymentOf(req)) && Ledger.BooksBalance(db)
    ensures MakePlan(db, w.unique, tx.visible, req, tx.auth, tx.entry) == WillSettle(PaidNow(db, req, tx), tx.entry)
    ensures tx.verdict == Settle(tx.entry)
  {
    hide Merge, FreshnessProblem, PlanMoney, Instruction.WellFormed, Ledger.BooksBalance, MakePlan, Ledger.Paid,
      BothRows, MovedRow, LimitProblem, OwnsSequence;
    Consistency.BooksIgnoreTheRest(db, Recorded(db, tx));
    PlanPastLimits(w, db, req, tx, tx.entry);
    Consistency.MoneyPlan(Recorded(db, tx), w.unique, tx.visible, req, tx.entry);
  }

  /** The refusal that it would end in. */
  lemma RefusalNow(w: World, db: Database, req: Request, tx: Tx, entry: nat)
    requires MoneyReasons(w, db, req, tx) && tx.path != ViaPaid
    requires Instruction.WellFormed(PaymentOf(req)) && Ledger.BooksBalance(db)
    ensures tx.verdict.Refuse?
    ensures MakePlan(db, w.unique, tx.visible, req, tx.auth, entry)
            == WillRefuse(Recorded(db, tx), tx.verdict.code, tx.verdict.detail)
  {
    hide Merge, FreshnessProblem, PlanMoney, Instruction.WellFormed, Ledger.BooksBalance, MakePlan, Ledger.Paid,
      BothRows, MovedRow, LimitProblem, OwnsSequence, HasEntry, KeyTaken;
    Consistency.BooksIgnoreTheRest(db, Recorded(db, tx));
    PlanPastLimits(w, db, req, tx, entry);
    Consistency.MoneyPlan(Recorded(db, tx), w.unique, tx.visible, req, entry);
  }

  lemma MoneyPlan(w: World, db: Database, req: Request, tx: Tx, entry: nat)
    requires MoneyReasons(w, db, req, tx) && Instruction.WellFormed(PaymentOf(req)) && Ledger.BooksBalance(db)
    requires tx.path == ViaPaid ==> entry == tx.entry
    ensures MakePlan(db, w.unique, tx.visible, req, tx.auth, entry) == PlanOf(db, tx)
  {
    assert PaymentOf(req).senderVpa != PaymentOf(req).receiverVpa;
    hide Merge, FreshnessProblem, Instruction.WellFormed, Ledger.BooksBalance, MakePlan, BothRows, LimitProblem,
      IsShort, PassedChecks, OwnsSequence, PaidNow;
    if tx.path.ViaPaid? {
      PaymentNow(w, db, req, tx);
      PaymentMerges(db, req, tx);
    } else {
      RefusalNow(w, db, req, tx, entry);
      RefusalMerges(db, BodyOf(tx));
      PlusNothing(db.devices);
    }
  }

  /** The last two writes of the transaction are those that conclude the plan. */
  lemma ConclusionMerges(db: Database, req: Request, tx: Tx)
    requires HasReceipt(db, req, tx) && HasDecision(db, req, tx)
    ensures Conclude(Merge(db, BodyOf(tx)), req, tx.verdict) == Committed(Merge(db, tx.pending), tx.verdict)
  {
    hide DecidedRow, Receipts.ReceiptFor;
    PlusNothing(db.receipts);
    PlusNothing(db.claims);
    PlusOne(db.claims, req.key, DecidedRow(req.holder, tx.verdict));
    PlusOne(db.receipts, req.key, Receipts.ReceiptFor(tx.verdict));
  }

  /**
   * The commit of an interleaved transaction is the atomic decision on the tables as they are at that
   * moment, whatever other transactions have committed since it began.
   */
  lemma CommitIsAtomicDecision(w: World, db: Database, req: Request, tx: Tx, entry: nat)
    requires Facts(w, db, Committing, req, tx) && Instruction.WellFormed(PaymentOf(req)) && Ledger.BooksBalance(db)
    requires tx.path == ViaPaid ==> entry == tx.entry
    ensures Decide(db, w.unique, tx.visible, req, tx.auth, entry) == Committed(Merge(db, tx.pending), tx.verdict)
  {
    hide Merge, BodyOf, HasReceipt, HasDecision, EarlyReasons, MoneyReasons, Instruction.WellFormed, Conclude,
      Ledger.BooksBalance, MakePlan;
    if EarlyReasons(db, req, tx) {
      EarlyPlan(w, db, req, tx, entry);
    } else {
      MoneyPlan(w, db, req, tx, entry);
    }
    ConclusionMerges(db, req, tx);
  }
}
