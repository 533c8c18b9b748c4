/** What decisions go by: what a transaction read, what each verdict means, and what has changed since. */
module Verdicts {
  import opened Wrappers
  import opened Tables
  import opened Claims
  import opened Ingest
  import opened Protocol
  import opened Isolation
  import opened Safety
  import opened Runs
  import Consistency
  import History
  import Instruction
  import Ledger
  import Registry
  import Spec

  const SIX_HOURS: int := 21_600_000
  const FIVE_MINUTES: int := 300_000

  // ---------------------------------------------------------------------------------------------
  // In plain terms
  // ---------------------------------------------------------------------------------------------

  /** The device is registered, active, bound to the payer's account, under the key that signed. */
  predicate IsEntitled(db: Database, req: Request) {
    && IsActive(db, req.device)
    && db.devices[req.device].publicKey == req.intent.publicKey
    && db.devices[req.device].vpa == PaymentOf(req).senderVpa
  }

  predicate IsFresh(p: Instruction.PaymentInstruction, now: int) {
    now <= p.expiresAt && now <= p.signedAt + SIX_HOURS && p.signedAt <= now + FIVE_MINUTES
  }

  predicate IsWithinLimits(db: Database, req: Request) {
    && req.device in db.envelopes
    && PaymentOf(req).amountPaise <= db.envelopes[req.device].cap
    && PaymentOf(req).amountPaise <= db.envelopes[req.device].allowance
  }

  /** Both accounts exist and the payer has the money; only the house may go into debt. */
  predicate IsFunded(db: Database, p: Instruction.PaymentInstruction) {
    && p.senderVpa in db.accounts && p.receiverVpa in db.accounts
    && (db.accounts[p.senderVpa].kind == House || db.accounts[p.senderVpa].balance >= p.amountPaise)
  }

  predicate MayPay(db: Database, req: Request) {
    && IsEntitled(db, req) && IsFresh(PaymentOf(req), req.now) && SequenceOf(req) !in db.sequences
    && IsWithinLimits(db, req) && IsFunded(db, PaymentOf(req))
  }

  lemma FreshMeans(p: Instruction.PaymentInstruction, now: int)
    ensures FreshnessProblem(p, now).None? <==> IsFresh(p, now)
  {}

  /** Why authorize denies with this code; of several causes the first in this order is given. */
  predicate DeniedFor(db: Database, req: Request, code: Code) {
    match code
    case DeviceNotRegistered => req.device !in db.devices
    case DeviceRevoked => req.device in db.devices && db.devices[req.device].state == Revoked
    case DeviceKeyMismatch =>
      IsActive(db, req.device) && db.devices[req.device].publicKey != req.intent.publicKey
    case DeviceNotBoundToVpa =>
      && IsActive(db, req.device) && db.devices[req.device].publicKey == req.intent.publicKey
      && db.devices[req.device].vpa != PaymentOf(req).senderVpa
    case NoOfflineEnvelope => IsEntitled(db, req) && req.device !in db.envelopes
    case _ => false
  }

  lemma AuthorizationMeans(db: Database, req: Request)
    ensures match AuthorizeRequest(db, req)
            case Allowed(limits) =>
              && IsEntitled(db, req) && limits.device == req.device
              && Lookup(db.envelopes, req.device) == Some(OfflineEnvelope(limits.allowance, limits.cap))
            case Denied(code, _) => DeniedFor(db, req, code) && !(IsEntitled(db, req) && req.device in db.envelopes)
  {}

  /** Whatever has become of the device since authorize allowed it, the rest of decide settles what it can. */
  lemma AllowedPlan(db: Database, unique: bool, req: Request, limits: Registry.Limits, entry: nat)
    requires Ledger.BooksBalance(db) && Instruction.WellFormed(PaymentOf(req)) && !KeyTaken(db.entries, req.key)
    requires forall q :: q in db.sequences ==> db.sequences[q] != req.key
    requires IsWithinLimits(db, req)
    requires Registry.LimitProblem(limits, PaymentOf(req).amountPaise) == None
    ensures MakePlan(db, unique, db.accounts.Keys, req, Registry.Allowed(limits), entry).WillSettle? <==>
            && IsFresh(PaymentOf(req), req.now) && SequenceOf(req) !in db.sequences && IsFunded(db, PaymentOf(req))
  {
    var recorded := db.(sequences := Registry.RecordSequence(db.sequences, SequenceOf(req), req.key).0);
    FreshMeans(PaymentOf(req), req.now);
    Consistency.BooksIgnoreTheRest(db, recorded);
    assert req.device in recorded.envelopes;
    hide FreshnessProblem, IsFresh, Instruction.WellFormed, Ledger.BooksBalance, PlanMoney, Registry.LimitProblem;
    Consistency.MoneyPlan(recorded, unique, db.accounts.Keys, req, entry);
  }

  lemma LimitsMean(limits: Registry.Limits, amount: int)
    ensures Registry.LimitProblem(limits, amount) == None <==> amount <= limits.cap && amount <= limits.allowance
  {}

  lemma PlanSettlesWhenItMay(db: Database, unique: bool, req: Request, entry: nat)
    requires Ledger.BooksBalance(db) && Instruction.WellFormed(PaymentOf(req)) && !KeyTaken(db.entries, req.key)
    requires forall q :: q in db.sequences ==> db.sequences[q] != req.key
    ensures MakePlan(db, unique, db.accounts.Keys, req, AuthorizeRequest(db, req), entry).WillSettle?
            <==> MayPay(db, req)
  {
    hide Ledger.BooksBalance, Instruction.WellFormed, AuthorizeRequest, FreshnessProblem, IsFresh, PlanMoney,
      Registry.LimitProblem, IsFunded, KeyTaken, IsEntitled;
    AuthorizationMeans(db, req);
    match AuthorizeRequest(db, req)
    case Denied(_, _) =>
    case Allowed(limits) =>
      LimitsMean(limits, PaymentOf(req).amountPaise);
      if IsWithinLimits(db, req) {
        AllowedPlan(db, unique, req, limits, entry);
      }
  }

  /** A delivery that holds its claim and runs alone settles the payment exactly when the payment may be made. */
  lemma SettlesExactlyWhenItMay(db: Database, unique: bool, req: Request, entry: nat)
    requires Consistency.Consistent(db) && Instruction.WellFormed(PaymentOf(req)) && req.key == KeyOf(req.intent)
    requires HeldBy(db.claims, req.key, req.holder)
    ensures var decision := DecideAlone(db, unique, req, entry);
            decision.Committed? && (decision.verdict.Settle? <==> MayPay(db, req))
  {
    hide Consistency.ClaimsMatchEntries, Consistency.ReceiptsMatchClaims, Consistency.SequencesDecided,
      Ledger.BooksBalance, Instruction.WellFormed, MakePlan, MayPay, KeyTaken;
    Consistency.DecidingAloneSucceeds(db, unique, req, entry);
    Consistency.UndecidedLeavesNoTrace(db, req);
    PlanSettlesWhenItMay(db, unique, req, entry);
  }

  /** Authorized, and fresh when it arrived. */
  predicate PassesFirstChecks(read: Database, req: Request) {
    IsEntitled(read, req) && req.device in read.envelopes && IsFresh(PaymentOf(req), req.now)
  }

  /** And its number belongs to no other payment. */
  predicate PassesNumber(read: Database, now: Database, req: Request) {
    && PassesFirstChecks(read, req)
    && (SequenceOf(req) in now.sequences ==> now.sequences[SequenceOf(req)] == req.key)
  }

  /**
   * What a refusal with this code says of the tables when authorize read them and when it committed. No two
   * codes have a cause at once.
   */
  ghost predicate Caused(read: Database, now: Database, req: Request, visible: set<Vpa>, code: Code) {
    var p := PaymentOf(req);
    match code
    case StaleOrFutureDated =>
      IsEntitled(read, req) && req.device in read.envelopes && !IsFresh(p, req.now)
    case SequenceReuse =>
      && PassesFirstChecks(read, req)
      && SequenceOf(req) in now.sequences && now.sequences[SequenceOf(req)] != req.key
    case OfflineLimitExceeded => PassesNumber(read, now, req) && !IsWithinLimits(read, req)
    case UnknownAccount =>
      && PassesNumber(read, now, req) && IsWithinLimits(read, req)
      && (p.senderVpa !in visible || p.receiverVpa !in visible)
    case InsufficientFunds =>
      && PassesNumber(read, now, req) && IsWithinLimits(read, req) && p.senderVpa in visible && p.receiverVpa in visible
      && p.senderVpa in now.accounts && now.accounts[p.senderVpa].kind == Customer
      && now.accounts[p.senderVpa].balance < p.amountPaise
    case _ => DeniedFor(read, req, code)
  }

  /** So the tables determine the code. */
  lemma OnlyOneCause(read: Database, now: Database, req: Request, visible: set<Vpa>, code: Code, other: Code)
    requires Caused(read, now, req, visible, code) && Caused(read, now, req, visible, other)
    ensures code == other
  {
    hide IsFresh;
  }

  lemma MoneyRefusesForCause(db: Database, unique: bool, req: Request, entry: nat)
    requires Ledger.BooksBalance(db) && Instruction.WellFormed(PaymentOf(req))
    ensures match PlanMoney(db, unique, db.accounts.Keys, req, entry)
            case WillRefuse(_, UnknownAccount, _) =>
              PaymentOf(req).senderVpa !in db.accounts || PaymentOf(req).receiverVpa !in db.accounts
            case WillRefuse(_, code, _) =>
              && code == InsufficientFunds && PaymentOf(req).receiverVpa in db.accounts
              && PaymentOf(req).senderVpa in db.accounts && !IsFunded(db, PaymentOf(req))
            case _ => true
  {
    hide Instruction.WellFormed, PlanMoney, KeyTaken, Ledger.BooksBalance;
    Consistency.MoneyPlan(db, unique, db.accounts.Keys, req, entry);
  }

  lemma PlanRefusesForCause(db: Database, unique: bool, req: Request, entry: nat)
    requires Ledger.BooksBalance(db) && Instruction.WellFormed(PaymentOf(req))
    ensures match MakePlan(db, unique, db.accounts.Keys, req, AuthorizeRequest(db, req), entry)
            case WillRefuse(_, code, _) => Caused(db, db, req, db.accounts.Keys, code)
            case _ => true
  {
    hide Instruction.WellFormed, PlanMoney, Ledger.BooksBalance, FreshnessProblem, IsFresh, Registry.LimitProblem,
      AuthorizeRequest;
    var recorded := db.(sequences := Registry.RecordSequence(db.sequences, SequenceOf(req), req.key).0);
    AuthorizationMeans(db, req);
    FreshMeans(PaymentOf(req), req.now);
    Consistency.BooksIgnoreTheRest(db, recorded);
    MoneyRefusesForCause(recorded, unique, req, entry);
    match AuthorizeRequest(db, req)
    case Denied(_, _) =>
    case Allowed(limits) => LimitsMean(limits, PaymentOf(req).amountPaise);
  }

  /** Otherwise it is refused, with the one code that has its cause in the tables. */
  lemma RefusesExactlyForCause(db: Database, unique: bool, req: Request, entry: nat, code: Code)
    requires Consistency.Consistent(db) && Instruction.WellFormed(PaymentOf(req)) && req.key == KeyOf(req.intent)
    requires HeldBy(db.claims, req.key, req.holder)
    ensures var decision := DecideAlone(db, unique, req, entry);
            decision.Committed? &&
            (Caused(db, db, req, db.accounts.Keys, code) <==>
              decision.verdict.Refuse? && CodeOf(decision.verdict) == code)
  {
    hide Consistency.Consistent, Instruction.WellFormed, MakePlan, MayPay, Caused, AuthorizeRequest;
    SettlesExactlyWhenItMay(db, unique, req, entry);
    ConsistentBooks(db);
    PlanRefusesForCause(db, unique, req, entry);
    var decision := DecideAlone(db, unique, req, entry);
    if decision.verdict.Settle? {
      NoCauseToRefuse(db, req, code);
    } else if Caused(db, db, req, db.accounts.Keys, code) {
      OnlyOneCause(db, db, req, db.accounts.Keys, code, CodeOf(decision.verdict));
    }
  }

  /** What the verdict goes by is in no way changed by taking the claim or noting the fingerprint. */
  lemma ClaimsDoNotMatter(db: Database, db': Database, req: Request, code: Code)
    requires db' == db.(claims := db'.claims, fingerprints := db'.fingerprints)
    ensures MayPay(db', req) <==> MayPay(db, req)
    ensures Caused(db', db', req, db'.accounts.Keys, code) <==> Caused(db, db, req, db.accounts.Keys, code)
  {
    hide IsFresh;
  }

  /**
   * From bytes to answer: one uninterrupted delivery that reads a payment and can have its claim answers SETTLED
   * exactly if the payment may be made, going by the device of the key that signed it and the time at which the
   * envelope arrived, and otherwise REJECTED with the code that has its cause in the tables.
   */
  lemma DeliveryAnswers(w: World, db: Database, d: Delivery, intent: Intent, entry: nat, code: Code)
    requires Sound(w) && Consistency.Consistent(db) && entry >= 1 && entry !in db.entries
    requires w.open(d.wire, d.ring) == Opened(intent) && KnownDecision(db, w.fingerprint(d.wire)) == None
    requires Takeable(db.claims, KeyOf(intent), d.dbNow)
    ensures var reply := Deliver(w, db, d, entry, Acknowledged).1;
            var req := Request(KeyOf(intent), d.holder, intent, w.deviceIdOf(intent.publicKey), d.now);
            && (reply.outcome == ReplySettled <==> MayPay(db, req))
            && (reply.outcome == ReplyRejected <==> !MayPay(db, req))
            && (reply.outcome == ReplyRejected && reply.code == code <==> Caused(db, db, req, db.accounts.Keys, code))
  {
    hide Sound, Consistency.Consistent, Deliver, Noted, Settlement, Takeable, HeldBy, KnownDecision, MayPay,
      Instruction.WellFormed, Caused, KeyOf;
    var held := Consistency.TakenSettles(w, db, d, intent, entry);
    var req := Request(KeyOf(intent), d.holder, intent, w.deviceIdOf(intent.publicKey), d.now);
    ClaimsDoNotMatter(db, held, req, code);
    SettlementAnswers(w, held, d, intent, entry, code);
  }

  lemma SettlementAnswers(w: World, db: Database, d: Delivery, intent: Intent, entry: nat, code: Code)
    requires Consistency.Consistent(db) && Instruction.WellFormed(intent.instruction)
    requires HeldBy(db.claims, KeyOf(intent), d.holder)
    ensures var reply := Settlement(w, db, d, intent, entry, Acknowledged).1;
            var req := Request(KeyOf(intent), d.holder, intent, w.deviceIdOf(intent.publicKey), d.now);
            && (reply.outcome == ReplySettled <==> MayPay(db, req))
            && (reply.outcome == ReplyRejected <==> !MayPay(db, req))
            && (reply.outcome == ReplyRejected && reply.code == code <==> Caused(db, db, req, db.accounts.Keys, code))
  {
    hide Consistency.Consistent, MayPay, Instruction.WellFormed, Caused, KeyOf, DecideAlone, HeldBy;
    var req := Request(KeyOf(intent), d.holder, intent, w.deviceIdOf(intent.publicKey), d.now);
    SettlesExactlyWhenItMay(db, w.unique, req, entry);
    RefusesExactlyForCause(db, w.unique, req, entry, code);
  }

  lemma ConsistentBooks(db: Database)
    requires Consistency.Consistent(db)
    ensures Ledger.BooksBalance(db)
  {
    hide Ledger.BooksBalance;
  }

  lemma NoCauseToRefuse(db: Database, req: Request, code: Code)
    requires MayPay(db, req)
    ensures !Caused(db, db, req, db.accounts.Keys, code)
  {
    hide IsFresh;
  }

  // ---------------------------------------------------------------------------------------------
  // The two early reads
  // ---------------------------------------------------------------------------------------------

  /** Past authorize, inside the transaction. */
  predicate HasRead(d: InFlight) {
    InTx(d.pc) && d.pc != Authorizing
  }

  /** The locking SELECT has its snapshot, and the verdict, if there is one, came after it. */
  predicate PastSelecting(d: InFlight) {
    match d.pc
    case LockingFirst => true
    case LockingSecond => true
    case Journaling => true
    case Debiting => true
    case Crediting => true
    case Consuming => true
    case Receipting => d.tx.path.ViaMissing? || d.tx.path.ViaShort? || d.tx.path.ViaPaid?
    case Marking => d.tx.path.ViaMissing? || d.tx.path.ViaShort? || d.tx.path.ViaPaid?
    case Committing => d.tx.path.ViaMissing? || d.tx.path.ViaShort? || d.tx.path.ViaPaid?
    case _ => false
  }

  /** One statement on: what authorize and the SELECT have read stays read. */
  ghost predicate ReadingsStay(w: World, db: Database, d: InFlight, d': InFlight) {
    && (HasRead(d') ==>
          d'.tx.auth == if d.pc == Authorizing then AuthorizeRequest(db, ReqOf(w, d)) else d.tx.auth)
    && (PastSelecting(d') ==> d.pc == Selecting || PastSelecting(d))
    && (PastSelecting(d') ==> d'.tx.visible == if d.pc == Selecting then db.accounts.Keys else d.tx.visible)
    && (PastSelecting(d) && InTx(d'.pc) ==> PastSelecting(d'))
  }

  lemma StatementKeepsReadings(w: World, db: Database, next: nat, d: InFlight)
    requires InTx(d.pc) && d.pc != Committing
    ensures ReadingsStay(w, db, d, Execute(w, db, next, d)) && Execute(w, db, next, d).pc != Authorizing
  {
    hide AuthorizeRequest, FreshnessProblem, Registry.LimitProblem, KeyTaken, Ledger.Move, Registry.Consume, MovedRow,
      Claims.HeldBy, DecidedRow, First, Second, Ledger.Overdrawn, RevokedRow, Registry.SpentRow, ReqOf;
  }

  /** This delivery's authorize runs on these tables and reads what its transaction goes on to use. */
  ghost predicate Reads(w: World, s: State, step: Step, id: nat, d: InFlight) {
    && step == Run(id) && s.At(id).pc == Authorizing && ReqOf(w, s.At(id)) == ReqOf(w, d)
    && AuthorizeRequest(s.db, ReqOf(w, d)) == d.tx.auth
  }

  /** The SELECT of this delivery's transaction takes its snapshot of these tables. */
  ghost predicate Selects(w: World, s: State, step: Step, id: nat, d: InFlight) {
    && step == Run(id) && s.At(id).pc == Selecting && ReqOf(w, s.At(id)) == ReqOf(w, d)
    && d.tx.visible == s.db.accounts.Keys
  }

  /** What a delivery has read after a step it read in that step, or had read before. */
  lemma ReadingStep(w: World, s: State, step: Step, id: nat)
    requires Isolated(w, s) && Enabled(w, s, step)
    ensures var d, d' := s.At(id), Next(w, s, step).At(id);
            && (HasRead(d') ==>
                  Reads(w, s, step, id, d')
                  || (HasRead(d) && ReqOf(w, d) == ReqOf(w, d') && d'.tx.auth == d.tx.auth))
            && (PastSelecting(d') ==>
                  Selects(w, s, step, id, d')
                  || (PastSelecting(d) && ReqOf(w, d) == ReqOf(w, d') && d'.tx.visible == d.tx.visible))
  {
    hide Isolated, Next, Enabled, AuthorizeRequest, ReqOf, Moved, PastSelecting, HasRead;
    if step == Run(id) {
      RunReads(w, s, id);
    } else {
      StepMoves(w, s, step);
      if MoverOf(step) == Some(id) {
        NothingIsRead(w, s, step, id, s.At(id), Next(w, s, step).At(id));
      }
    }
  }

  lemma RunReads(w: World, s: State, id: nat)
    requires Isolated(w, s) && Enabled(w, s, Run(id))
    ensures var d, d' := s.At(id), Next(w, s, Run(id)).At(id);
            && ReqOf(w, d) == ReqOf(w, d')
            && (HasRead(d') ==> Reads(w, s, Run(id), id, d') || (HasRead(d) && d'.tx.auth == d.tx.auth))
            && (PastSelecting(d') ==>
                  Selects(w, s, Run(id), id, d') || (PastSelecting(d) && d'.tx.visible == d.tx.visible))
  {
    hide Isolated, Execute, AuthorizeRequest, Operated, PastSelecting, AfterAcquire, LookedUp, Unsealed, Found,
      AfterCommit, Noted, Free, Wants, KeyOf;
    StatementKeepsReadings(w, s.db, s.nextEntry, s.At(id));
    LeadingOnMoves(w, s, Run(id), id);
  }

  lemma NothingIsRead(w: World, s: State, step: Step, id: nat, d: InFlight, d': InFlight)
    requires Moved(w, s, step, d, d') && MoverOf(step) == Some(id) && step != Run(id)
    ensures !HasRead(d') && !PastSelecting(d')
  {}

  /** Step m is the authorize of this delivery's transaction. */
  ghost predicate ReadAt(w: World, r: Run, m: nat, id: nat, d: InFlight) {
    Reads(w, r.state(m), r.step(m), id, d)
  }

  /** Step k is the snapshot of this delivery's locking SELECT. */
  ghost predicate SelectsAt(w: World, r: Run, k: nat, id: nat, d: InFlight) {
    Selects(w, r.state(k), r.step(k), id, d)
  }

  lemma ReadingStepOfRun(w: World, r: Run, n: nat, id: nat)
    requires Sound(w) && IsRun(w, r)
    ensures var d, d' := r.state(n).At(id), r.After(n).At(id);
            && (HasRead(d') ==>
                  ReadAt(w, r, n, id, d') || (HasRead(d) && ReqOf(w, d) == ReqOf(w, d') && d'.tx.auth == d.tx.auth))
            && (PastSelecting(d') ==>
                  SelectsAt(w, r, n, id, d')
                  || (PastSelecting(d) && ReqOf(w, d) == ReqOf(w, d') && d'.tx.visible == d.tx.visible))
  {
    hide Isolated, TablesGood, WellHeld, Faithful, RepliesTrue, History.HistoryTrue, Sound, IsRun, Next, Enabled,
      ReqOf, Reads, Selects, HasRead, PastSelecting;
    StepOfRun(w, r, n);
    ReadingStep(w, r.state(n), r.step(n), id);
  }

  lemma NothingReadAtFirst(r: Run, id: nat)
    requires Initial(r.state(0))
    ensures !HasRead(r.state(0).At(id)) && !PastSelecting(r.state(0).At(id))
  {}

  /** What a transaction goes by is what its own authorize read. */
  lemma {:induction false} AuthorizationWasRead(w: World, r: Run, n: nat, id: nat) returns (m: nat)
    requires Sound(w) && IsRun(w, r) && HasRead(r.state(n).At(id))
    ensures m < n && ReadAt(w, r, m, id, r.state(n).At(id))
  {
    hide Follows, Sound, HasRead, ReqOf, PastSelecting, AuthorizeRequest;
    if n == 0 {
      NothingReadAtFirst(r, id);
    } else {
      ReadingStepOfRun(w, r, n - 1, id);
      if ReadAt(w, r, n - 1, id, r.state(n).At(id)) {
        m := n - 1;
      } else {
        m := AuthorizationWasRead(w, r, n - 1, id);
      }
    }
  }

  /** What a transaction saw of the accounts is what there was when its own SELECT began. */
  lemma {:induction false} SelectionWasMade(w: World, r: Run, n: nat, id: nat) returns (k: nat)
    requires Sound(w) && IsRun(w, r) && PastSelecting(r.state(n).At(id))
    ensures k < n && SelectsAt(w, r, k, id, r.state(n).At(id))
  {
    hide Follows, Sound, HasRead, ReqOf, PastSelecting, AuthorizeRequest;
    if n == 0 {
      NothingReadAtFirst(r, id);
    } else {
      ReadingStepOfRun(w, r, n - 1, id);
      if SelectsAt(w, r, n - 1, id, r.state(n).At(id)) {
        k := n - 1;
      } else {
        k := SelectionWasMade(w, r, n - 1, id);
      }
    }
  }

  /** What a committing transaction knows. */
  lemma CommitterOfRun(w: World, r: Run, n: nat, id: nat, acknowledged: bool)
    requires Sound(w) && IsRun(w, r) && r.step(n) == Commit(id, acknowledged)
    ensures r.state(n).At(id).pc == Committing && HasRead(r.state(n).At(id))
    ensures Reasons(w, r.state(n).db, ReqOf(w, r.state(n).At(id)), r.state(n).At(id).tx)
  {
    hide IsRun, Sound, Safe, Isolated, TablesGood, Spec.DecidesOnce, Reasons, Merge, ReqOf, Spec.View;
    CommitOfRun(w, r, n, id, acknowledged);
    CommitterHasReasons(w, r.state(n), id);
  }

  lemma CommitterHasReasons(w: World, s: State, id: nat)
    requires Isolated(w, s) && s.At(id).pc == Committing
    ensures Reasons(w, s.db, ReqOf(w, s.At(id)), s.At(id).tx)
  {
    hide Isolated, Reasons, LocksInRange, Instruction.WellFormed, ReqOf, HasReceipt, HasDecision, PayFacts, CheckFacts;
    TxIsOk(w, s, id);
  }

  // ---------------------------------------------------------------------------------------------
  // What a settlement and a refusal mean in a run
  // ---------------------------------------------------------------------------------------------

  /** Registered, active, bound to the payer, under the signing key, and within its limits. */
  predicate Cleared(db: Database, req: Request) {
    IsEntitled(db, req) && IsWithinLimits(db, req)
  }

  lemma PaidMeansCleared(w: World, read: Database, now: Database, req: Request, tx: Tx)
    requires Reasons(w, now, req, tx) && tx.verdict.Settle? && AuthorizeRequest(read, req) == tx.auth
    ensures Cleared(read, req) && IsFresh(PaymentOf(req), req.now)
  {
    hide OwnsSequence, LockedParties, HasEntry, BothRows, RevokedRow, Registry.SpentRow;
    FreshMeans(PaymentOf(req), req.now);
    AuthorizationMeans(read, req);
  }

  /**
   * Money moves only for a fresh payment whose device was cleared for it when authorize, in the very
   * transaction that commits, read the device.
   */
  lemma SettledOnlyIfAuthorized(w: World, r: Run, n: nat, id: nat, acknowledged: bool, entry: nat)
    requires Sound(w) && IsRun(w, r) && r.step(n) == Commit(id, acknowledged)
    requires r.state(n).At(id).tx.verdict == Settle(entry)
    ensures IsFresh(PaymentOf(ReqOf(w, r.state(n).At(id))), r.state(n).At(id).now)
    ensures exists m: nat ::
              && m < n && ReadAt(w, r, m, id, r.state(n).At(id))
              && Cleared(r.state(m).db, ReqOf(w, r.state(n).At(id)))
  {
    hide IsRun, Sound, Reasons, Cleared, IsFresh, AuthorizeRequest;
    CommitterOfRun(w, r, n, id, acknowledged);
    var m := AuthorizationWasRead(w, r, n, id);
    PaidMeansCleared(w, r.state(m).db, r.state(n).db, ReqOf(w, r.state(n).At(id)), r.state(n).At(id).tx);
  }

  /** What the detail of a refusal tells: the first bound broken, with its numbers, or the account concerned. */
  ghost predicate Explained(read: Database, now: Database, req: Request, visible: set<Vpa>, code: Code,
                            detail: Detail) {
    var p := PaymentOf(req);
    match code
    case StaleOrFutureDated => ExplainsAge(p, req.now, detail)
    case SequenceReuse => detail == DeviceReusedSequence(req.device, p.deviceSequence)
    case OfflineLimitExceeded =>
      && req.device in read.envelopes
      && detail == if p.amountPaise > read.envelopes[req.device].cap
                   then OverCap(p.amountPaise, read.envelopes[req.device].cap)
                   else OverAllowance(p.amountPaise, read.envelopes[req.device].allowance)
    case UnknownAccount =>
      exists v :: detail == NoSuchAccount(v) && v !in visible && (v == p.senderVpa || v == p.receiverVpa)
    case InsufficientFunds =>
      && p.senderVpa in now.accounts
      && detail == Shortfall(p.senderVpa, now.accounts[p.senderVpa].balance, p.amountPaise)
    case _ => ExplainsDenial(read, req, code, detail)
  }

  /** Minutes are rounded to the nearest, halves up. */
  predicate ExplainsAge(p: Instruction.PaymentInstruction, now: int, detail: Detail) {
    match detail
    case PastPayerExpiry(t) => t == p.expiresAt && p.expiresAt < now
    case SignedMinutesAgo(m) =>
      && now <= p.expiresAt && now - p.signedAt > SIX_HOURS
      && 60_000 * m - 30_000 <= now - p.signedAt < 60_000 * m + 30_000
    case SignedInTheFuture => now <= p.expiresAt && p.signedAt - now > FIVE_MINUTES
    case _ => false
  }

  predicate ExplainsDenial(read: Database, req: Request, code: Code, detail: Detail) {
    match code
    case DeviceNotRegistered => detail == NotRegistered(req.device)
    case DeviceRevoked =>
      && req.device in read.devices
      && (read.devices[req.device].revokedReason == None ==> detail == Plain("device revoked"))
      && (read.devices[req.device].revokedReason != None ==> read.devices[req.device].revokedReason == Some(detail))
    case DeviceKeyMismatch => detail == StoredKeyDiffers
    case DeviceNotBoundToVpa =>
      req.device in read.devices && detail == PaysFrom(req.device, read.devices[req.device].vpa)
    case NoOfflineEnvelope => detail == NoOfflineLimits
    case _ => false
  }

  lemma AgeIsExplained(p: Instruction.PaymentInstruction, now: int)
    ensures match FreshnessProblem(p, now)
            case Some(detail) => ExplainsAge(p, now, detail)
            case None => true
  {}

  lemma DenialIsExplained(db: Database, req: Request)
    ensures match AuthorizeRequest(db, req)
            case Denied(code, detail) => ExplainsDenial(db, req, code, detail) && DeniedFor(db, req, code)
            case Allowed(_) => true
  {}

  lemma ReasonsExplain(w: World, read: Database, now: Database, req: Request, tx: Tx, code: Code, detail: Detail)
    requires Reasons(w, now, req, tx) && tx.verdict == Refuse(code, detail) && AuthorizeRequest(read, req) == tx.auth
    ensures Explained(read, now, req, tx.visible, code, detail)
  {
    hide HasEntry, BothRows, RevokedRow, Registry.SpentRow, OwnsSequence, ExplainsAge, ExplainsDenial,
      FreshnessProblem, AuthorizeRequest;
    AgeIsExplained(PaymentOf(req), req.now);
    DenialIsExplained(read, req);
    AuthorizationMeans(read, req);
  }

  lemma ReasonsAreCauses(w: World, read: Database, now: Database, req: Request, tx: Tx)
    requires Reasons(w, now, req, tx) && tx.verdict.Refuse? && AuthorizeRequest(read, req) == tx.auth
    ensures Caused(read, now, req, tx.visible, CodeOf(tx.verdict))
  {
    hide HasEntry, BothRows, RevokedRow, Registry.SpentRow;
    FreshMeans(PaymentOf(req), req.now);
    AuthorizationMeans(read, req);
  }

  /**
   * Whatever runs beside it, a committed refusal was for cause: shortage, reuse and staleness hold at
   * the commit itself, limits and denials held when authorize read them in the same transaction, and an
   * account reported unknown was not in the snapshot of its SELECT.
   */
  lemma RefusedOnlyForCause(w: World, r: Run, n: nat, id: nat, acknowledged: bool, code: Code, detail: Detail)
    requires Sound(w) && IsRun(w, r) && r.step(n) == Commit(id, acknowledged)
    requires r.state(n).At(id).tx.verdict == Refuse(code, detail)
    ensures var d := r.state(n).At(id);
            exists m: nat ::
              && m < n && ReadAt(w, r, m, id, d)
              && Caused(r.state(m).db, r.state(n).db, ReqOf(w, d), d.tx.visible, code)
              && Explained(r.state(m).db, r.state(n).db, ReqOf(w, d), d.tx.visible, code, detail)
  {
    hide IsRun, Sound, Reasons, Caused, Explained, AuthorizeRequest;
    CommitterOfRun(w, r, n, id, acknowledged);
    var m := AuthorizationWasRead(w, r, n, id);
    ReasonsAreCauses(w, r.state(m).db, r.state(n).db, ReqOf(w, r.state(n).At(id)), r.state(n).At(id).tx);
    ReasonsExplain(w, r.state(m).db, r.state(n).db, ReqOf(w, r.state(n).At(id)), r.state(n).At(id).tx, code, detail);
  }

  /** One of the parties has no account in these tables. */
  predicate LacksAParty(db: Database, req: Request) {
    PaymentOf(req).senderVpa !in db.accounts || PaymentOf(req).receiverVpa !in db.accounts
  }

  lemma MissingMeans(w: World, db: Database, req: Request, tx: Tx)
    requires Reasons(w, db, req, tx) && (tx.auth.Denied? ==> tx.auth.code != UnknownAccount)
    ensures CodeOf(tx.verdict) == UnknownAccount <==>
            && (tx.path.ViaMissing? || tx.path.ViaShort? || tx.path.ViaPaid?)
            && (PaymentOf(req).senderVpa !in tx.visible || PaymentOf(req).receiverVpa !in tx.visible)
  {
    hide OwnsSequence, HasEntry, BothRows, RevokedRow, Registry.SpentRow, FreshnessProblem, Registry.LimitProblem;
  }

  /**
   * A payment is refused for an unknown account exactly when its transaction came as far as its SELECT
   * and one of the parties had no account when the SELECT took its snapshot, whatever has been opened
   * since.
   */
  lemma UnknownExactlyWhenMissing(w: World, r: Run, n: nat, id: nat, acknowledged: bool)
    requires Sound(w) && IsRun(w, r) && r.step(n) == Commit(id, acknowledged)
    ensures var d := r.state(n).At(id);
            CodeOf(d.tx.verdict) == UnknownAccount <==>
            && PastSelecting(d)
            && exists k: nat :: k < n && SelectsAt(w, r, k, id, d) && LacksAParty(r.state(k).db, ReqOf(w, d))
  {
    hide IsRun, Sound, Reasons, CodeOf;
    var d := r.state(n).At(id);
    CommitterOfRun(w, r, n, id, acknowledged);
    var m := AuthorizationWasRead(w, r, n, id);
    AuthorizationMeans(r.state(m).db, ReqOf(w, d));
    hide AuthorizeRequest, IsEntitled, ReqOf;
    MissingMeans(w, r.state(n).db, ReqOf(w, d), d.tx);
    if PastSelecting(d) {
      var k := SelectionWasMade(w, r, n, id);
    }
  }

  // ---------------------------------------------------------------------------------------------
  // Revocations and registrations since
  // ---------------------------------------------------------------------------------------------

  /** An operator revokes the device, or a commit that found one of its numbers reused does. */
  predicate Revokes(w: World, s: State, step: Step, device: DeviceId) {
    match step
    case Operate(RevokeDevice(d, _)) => d == device
    case Commit(id, _) => ReqOf(w, s.At(id)).device == device && CodeOf(s.At(id).tx.verdict) == SequenceReuse
    case _ => false
  }

  /** An operator registers the device, and the registration is accepted. */
  predicate Registers(s: State, step: Step, device: DeviceId) {
    match step
    case Operate(RegisterDevice(d, vpa, _, allowance, cap)) =>
      d == device && Registry.Registrable(s.db.accounts, vpa, allowance, cap)
    case _ => false
  }

  /** Known devices stay known, and only these two kinds of step change whether one is active. */
  ghost predicate ActivityFollows(w: World, s: State, step: Step, db': Database, device: DeviceId) {
    && device in db'.devices
    && (IsActive(db', device) <==>
          Registers(s, step, device) || (IsActive(s.db, device) && !Revokes(w, s, step, device)))
  }

  lemma OperatorActivity(w: World, s: State, act: Spec.OperatorAct, device: DeviceId)
    requires device in s.db.devices
    ensures ActivityFollows(w, s, Operate(act), Operated(w, s, act).db, device)
  {
    hide Ledger.Precheck, Ledger.MoveAll, Instruction.TopUpKey, ReqOf;
  }

  lemma DecisionActivity(a: Spec.State, b: Spec.State, req: Request, verdict: Verdict, device: DeviceId)
    requires Spec.DecidesOnce(a, b, req, verdict) && device in a.devices
    ensures device in b.devices
    ensures if device == req.device && CodeOf(verdict) == SequenceReuse
            then b.devices[device].state == Revoked else b.devices[device] == a.devices[device]
  {
    hide Ledger.Paid, Ledger.Overdrawn;
  }

  lemma CommitActivity(w: World, r: Run, n: nat, id: nat, acknowledged: bool, device: DeviceId)
    requires Sound(w) && IsRun(w, r) && device in r.state(n).db.devices && r.step(n) == Commit(id, acknowledged)
    ensures ActivityFollows(w, r.state(n), Commit(id, acknowledged), r.After(n).db, device)
  {
    hide IsRun, Sound, Safe, Isolated, TablesGood, Spec.DecidesOnce, Spec.Decisions, ReqOf, Merge, CodeOf;
    var s := r.state(n);
    CommitOfRun(w, r, n, id, acknowledged);
    DecisionActivity(Spec.View(s.db), Spec.View(r.After(n).db), ReqOf(w, s.At(id)), s.At(id).tx.verdict, device);
  }

  lemma QuietActivity(w: World, s: State, step: Step, device: DeviceId)
    requires TablesGood(s) && device in s.db.devices && !step.Commit? && !step.Operate?
    ensures ActivityFollows(w, s, step, Next(w, s, step).db, device)
  {
    hide TablesGood, Next, Consistency.SameDecisions, Spec.Decisions, ReqOf, CodeOf;
    QuietStepRefines(w, s, step);
    assert Spec.View(Next(w, s, step).db).devices == Spec.View(s.db).devices;
  }

  lemma StepActivity(w: World, r: Run, n: nat, device: DeviceId)
    requires Sound(w) && IsRun(w, r) && device in r.state(n).db.devices
    ensures ActivityFollows(w, r.state(n), r.step(n), r.After(n).db, device)
  {
    hide IsRun, Sound, Isolated, WellHeld, RepliesTrue, Faithful, History.HistoryTrue, TablesGood, Enabled, Next,
      ActivityFollows, Operated;
    StepOfRun(w, r, n);
    match r.step(n)
    case Commit(id, acknowledged) => CommitActivity(w, r, n, id, acknowledged, device);
    case Operate(act) =>
      ActUnfolds(w, r.state(n), act);
      OperatorActivity(w, r.state(n), act, device);
    case _ => QuietActivity(w, r.state(n), r.step(n), device);
  }

  /** A revocation before step n that no registration before step n has undone. */
  ghost predicate StillRevoked(w: World, r: Run, i: nat, n: nat, device: DeviceId) {
    && i < n && Revokes(w, r.state(i), r.step(i), device)
    && forall j: nat :: i < j < n ==> !Registers(r.state(j), r.step(j), device)
  }

  ghost predicate NoneStillRevoked(w: World, r: Run, m: nat, n: nat, device: DeviceId) {
    forall i: nat :: m <= i ==> !StillRevoked(w, r, i, n, device)
  }

  lemma OneStepLater(w: World, r: Run, m: nat, n: nat, device: DeviceId)
    requires m < n
    ensures var before, last := n - 1, n - 1;
            NoneStillRevoked(w, r, m, n, device) <==>
            || Registers(r.state(last), r.step(last), device)
            || (NoneStillRevoked(w, r, m, before, device) && !Revokes(w, r.state(last), r.step(last), device))
  {
    hide Revokes, Registers;
    var last := n - 1;
    if Registers(r.state(last), r.step(last), device) {
      RegistersIsNoRevocation(w, r.state(last), r.step(last), device);
      forall i: nat | m <= i
        ensures !StillRevoked(w, r, i, n, device)
      {
        assert i < last ==> Registers(r.state(last), r.step(last), device);
      }
    } else if Revokes(w, r.state(last), r.step(last), device) {
      assert StillRevoked(w, r, last, n, device);
    } else {
      assert forall i: nat :: StillRevoked(w, r, i, n, device) <==> StillRevoked(w, r, i, last, device);
    }
  }

  lemma RegistersIsNoRevocation(w: World, s: State, step: Step, device: DeviceId)
    ensures !(Registers(s, step, device) && Revokes(w, s, step, device))
  {}

  /**
   * An active device is active later exactly when every revocation in between, by an operator or by a
   * committed reuse of a sequence number, has been followed by a registration.
   */
  lemma {:induction false} ActiveUnlessRevoked(w: World, r: Run, m: nat, n: nat, device: DeviceId)
    requires Sound(w) && IsRun(w, r) && m <= n && IsActive(r.state(m).db, device)
    ensures device in r.state(n).db.devices
    ensures IsActive(r.state(n).db, device) <==> NoneStillRevoked(w, r, m, n, device)
    decreases n
  {
    hide IsRun, Sound, Revokes, Registers;
    if m < n {
      hide NoneStillRevoked;
      ActiveUnlessRevoked(w, r, m, n - 1, device);
      StepActivity(w, r, n - 1, device);
      OneStepLater(w, r, m, n, device);
    }
  }

  /**
   * When a payment settles, its device is still active exactly when every revocation since the
   * authorize of that transaction has been followed by a registration: any other revocation in
   * between came too late to stop it.
   */
  lemma RevocationComesTooLate(w: World, r: Run, n: nat, id: nat, acknowledged: bool, entry: nat, m: nat)
    requires Sound(w) && IsRun(w, r) && r.step(n) == Commit(id, acknowledged) && m < n
    requires r.state(n).At(id).tx.verdict == Settle(entry) && ReadAt(w, r, m, id, r.state(n).At(id))
    ensures var device := ReqOf(w, r.state(n).At(id)).device;
            IsActive(r.state(n).db, device) <==> NoneStillRevoked(w, r, m, n, device)
  {
    hide IsRun, Sound, Reasons, AuthorizeRequest, NoneStillRevoked, IsFresh, IsWithinLimits;
    var d := r.state(n).At(id);
    CommitterOfRun(w, r, n, id, acknowledged);
    PaidMeansCleared(w, r.state(m).db, r.state(n).db, ReqOf(w, d), d.tx);
    ActiveUnlessRevoked(w, r, m, n, ReqOf(w, d).device);
  }
}
