/** What every reachable state of the protocol satisfies. */
module Safety {
  import opened Bytes
  import opened Wrappers
  import opened Tables
  import opened Claims
  import opened Ingest
  import opened Protocol
  import opened Isolation
  import opened Consistency
  import Instruction
  import KeyRing
  import Ledger
  import Receipts
  import Registry
  import Spec

  // ---------------------------------------------------------------------------------------------
  // What the larger steps change
  // ---------------------------------------------------------------------------------------------

  /** A statement goes on in its transaction or rolls it back, and locks at most what it wanted. */
  ghost predicate StatementMoves(w: World, db: Database, next: nat, d: InFlight, d': InFlight) {
    && d' == d.(pc := d'.pc, tx := d'.tx)
    && (InTx(d'.pc) || (d'.pc.Releasing? && d'.tx == NO_TX))
    && d'.tx.visible <= db.accounts.Keys
    && (forall l :: l in d'.tx.locks && l !in d.tx.locks ==>
          Wants(w, db, d) == Some(l) || (d.pc == Journaling && l == IdentityOf(next)))
  }

  lemma EffectOfStatement(w: World, db: Database, next: nat, d: InFlight)
    requires InTx(d.pc) && d.tx.visible <= db.accounts.Keys
    ensures StatementMoves(w, db, next, d, Execute(w, db, next, d))
  {
    if IsPaying(d.pc) {
      EffectOfPaying(w, db, next, d);
    } else {
      hide Pay, AuthorizeRequest, FreshnessProblem, Registry.LimitProblem, HeldBy, DecidedRow, RevokedRow,
        Receipts.ReceiptFor, KeyOf;
    }
  }

  lemma EffectOfPaying(w: World, db: Database, next: nat, d: InFlight)
    requires IsPaying(d.pc) && d.tx.visible <= db.accounts.Keys
    ensures StatementMoves(w, db, next, d, Pay(w, db, next, d))
  {
    hide KeyTaken, Ledger.Move, Registry.Consume, MovedRow, First, Second, Ledger.Overdrawn, Registry.SpentRow, KeyOf;
  }

  /** The committed tables after an operator's act. */
  lemma EffectOfOperating(db: Database, unique: bool, act: Spec.OperatorAct, entry: nat, db': Database)
    requires Spec.Operate(db, unique, act, entry) == Some(db')
    ensures db'.claims == db.claims && db'.sequences == db.sequences && db'.receipts == db.receipts
    ensures db'.fingerprints == db.fingerprints
  {
    hide Ledger.Precheck, Ledger.MoveAll, Registry.Registrable, Registry.RegisteredDevice, Registry.TopUp,
      Registry.Revoke, Instruction.TopUpKey;
  }

  // ---------------------------------------------------------------------------------------------
  // Open transactions
  // ---------------------------------------------------------------------------------------------

  /** Side conditions on what a transaction may have locked. */
  ghost predicate LocksInRange(w: World, next: nat, locks: set<Lock>) {
    && (forall e: nat :: IdentityOf(e) in locks ==> 1 <= e < next)
    && (w.unique || forall k :: JournalRow(k) !in locks)
  }

  ghost predicate TxOk(w: World, db: Database, next: nat, d: InFlight) {
    if InTx(d.pc) then
      && Instruction.WellFormed(d.intent.instruction) && d.holder.Some?
      && Facts(w, db, d.pc, ReqOf(w, d), d.tx)
      && d.tx.visible <= db.accounts.Keys
      && LocksInRange(w, next, d.tx.locks)
    else d.tx == NO_TX && (d.pc.Releasing? ==> d.holder.Some?)
  }

  /** No row is locked twice, and every transaction's facts hold. */
  ghost predicate Isolated(w: World, s: State) {
    && (forall i: nat, j: nat :: i != j ==> s.At(i).tx.locks !! s.At(j).tx.locks)
    && (forall i: nat :: TxOk(w, s.db, s.nextEntry, s.At(i)))
  }

  /** Committed tables are consistent and the identity sequence is ahead of them. */
  ghost predicate TablesGood(s: State) {
    Consistent(s.db) && s.nextEntry >= 1 && forall e :: e in s.db.entries ==> e < s.nextEntry
  }

  lemma TxIsOk(w: World, s: State, i: nat)
    requires Isolated(w, s)
    ensures TxOk(w, s.db, s.nextEntry, s.At(i)) && LocksInRange(w, s.nextEntry, s.At(i).tx.locks)
    ensures !InTx(s.At(i).pc) ==> s.At(i).tx == NO_TX
    ensures InTx(s.At(i).pc) || s.At(i).pc.Releasing? ==> s.At(i).holder.Some?
    ensures s.At(i).tx.visible <= s.db.accounts.Keys
  {
    hide Facts, Instruction.WellFormed;
  }

  lemma TxOkIsStable(w: World, db: Database, next: nat, db': Database, next': nat, d: InFlight)
    requires TxOk(w, db, next, d) && next <= next'
    requires AllKept(db, db', d.tx.locks) && Grows(db, db')
    ensures TxOk(w, db', next', d)
  {
    hide Facts, AllKept, Instruction.WellFormed;
    if InTx(d.pc) {
      FactsAreStable(w, db, db', d.pc, ReqOf(w, d), d.tx);
    }
  }

  /** A commit that can be taken, and what it does. */
  lemma CommitUnfolds(w: World, s: State, id: nat, acknowledged: bool)
    requires Enabled(w, s, Commit(id, acknowledged))
    ensures s.At(id).pc == Committing
    ensures Next(w, s, Commit(id, acknowledged)) ==
            s.With(id, AfterCommit(s.At(id), acknowledged)).(
              db := Merge(s.db, s.At(id).tx.pending),
              log := s.log + [Decided(id, ReqOf(w, s.At(id)), s.At(id).tx.verdict)])
  {
    hide Execute, Operated, AfterAcquire, LookedUp, Unsealed, Found, AfterCommit, Noted, Wants, Free, NoneLocked, Merge,
      ReqOf, Released;
  }

  lemma ActUnfolds(w: World, s: State, act: Spec.OperatorAct)
    ensures Next(w, s, Operate(act)) == Operated(w, s, act)
  {
    hide Execute, Operated, AfterAcquire, LookedUp, Unsealed, Found, AfterCommit, Noted, Merge, ReqOf, Released;
  }

  /** One delivery moves; every other transaction's rows stay as they were. */
  lemma OneMoves(w: World, s: State, s': State, id: nat)
    requires Isolated(w, s) && s.nextEntry <= s'.nextEntry && TxOk(w, s'.db, s'.nextEntry, s'.At(id))
    requires forall j: nat :: j != id ==>
               && s'.At(j) == s.At(j) && s.At(j).tx.locks !! s'.At(id).tx.locks
               && AllKept(s.db, s'.db, s.At(j).tx.locks)
    requires Grows(s.db, s'.db)
    ensures Isolated(w, s')
  {
    hide TxOk, AllKept, Grows;
    forall j: nat
      ensures TxOk(w, s'.db, s'.nextEntry, s'.At(j))
    {
      if j != id {
        TxOkIsStable(w, s.db, s.nextEntry, s'.db, s'.nextEntry, s.At(j));
      }
    }
  }

  lemma SameTables(db: Database, db': Database, locks: set<Lock>)
    requires db' == db.(fingerprints := db'.fingerprints)
    ensures AllKept(db, db', locks) && Grows(db, db')
  {}

  /** A delivery moves, and no table a transaction reads changes. */
  lemma MovingKeepsIsolation(w: World, s: State, s': State, id: nat)
    requires Isolated(w, s) && s.nextEntry <= s'.nextEntry && s'.db == s.db.(fingerprints := s'.db.fingerprints)
    requires forall j: nat :: j != id ==> s'.At(j) == s.At(j) && s.At(j).tx.locks !! s'.At(id).tx.locks
    requires TxOk(w, s'.db, s'.nextEntry, s'.At(id))
    ensures Isolated(w, s')
  {
    hide TxOk, AllKept, Grows;
    SameTables(s.db, s'.db, {});
    forall j: nat
      ensures AllKept(s.db, s'.db, s.At(j).tx.locks)
    {
      SameTables(s.db, s'.db, s.At(j).tx.locks);
    }
    OneMoves(w, s, s', id);
  }

  lemma RunKeepsTx(w: World, s: State, id: nat, next': nat)
    requires Isolated(w, s) && TablesGood(s) && InTx(s.At(id).pc) && s.At(id).pc != Committing
    requires next' == if s.At(id).pc == Journaling then s.nextEntry + 1 else s.nextEntry
    ensures TxOk(w, s.db, next', Execute(w, s.db, s.nextEntry, s.At(id)))
    ensures StatementMoves(w, s.db, s.nextEntry, s.At(id), Execute(w, s.db, s.nextEntry, s.At(id)))
  {
    NobodyIsOverdrawn(s.db);
    TxIsOk(w, s, id);
    hide Execute, Facts, Consistent, Isolated, Instruction.WellFormed, NobodyOverdrawn, LocksInRange, Wants;
    var d, d' := s.At(id), Execute(w, s.db, s.nextEntry, s.At(id));
    EffectOfStatement(w, s.db, s.nextEntry, d);
    StatementKeepsFacts(w, s.db, s.nextEntry, d);
    LocksStayInRange(w, s.db, s.nextEntry, d, d', next');
  }

  lemma LocksStayInRange(w: World, db: Database, next: nat, d: InFlight, d': InFlight, next': nat)
    requires StatementMoves(w, db, next, d, d') && LocksInRange(w, next, d.tx.locks) && next >= 1
    requires next' == if d.pc == Journaling then next + 1 else next
    ensures LocksInRange(w, next', d'.tx.locks)
  {}

  lemma NobodyIsOverdrawn(db: Database)
    requires Consistent(db)
    ensures NobodyOverdrawn(db) && db.devices.Keys == db.envelopes.Keys && Ledger.BooksBalance(db)
  {
    hide ClaimsMatchEntries, ReceiptsMatchClaims, SequencesDecided;
  }

  lemma RunKeepsIsolation(w: World, s: State, id: nat)
    requires Isolated(w, s) && TablesGood(s) && Enabled(w, s, Run(id))
    ensures Isolated(w, Next(w, s, Run(id)))
  {
    var s' := Next(w, s, Run(id));
    hide Execute, TxOk, Consistent, Spec.Operate;
    RunKeepsTx(w, s, id, s'.nextEntry);
    forall j: nat | j != id
      ensures s.At(j).tx.locks !! s'.At(id).tx.locks
    {
      TxIsOk(w, s, j);
      assert s.At(id).tx.locks !! s.At(j).tx.locks;
    }
    MovingKeepsIsolation(w, s, s', id);
  }

  lemma CommitterIsCovered(w: World, s: State, id: nat)
    requires Isolated(w, s) && s.At(id).pc == Committing
    ensures Covered(w, s.db, s.At(id).tx)
  {
    hide Facts, Instruction.WellFormed, Covered;
    TxIsOk(w, s, id);
    CommitIsCovered(w, s.db, ReqOf(w, s.At(id)), s.At(id).tx);
  }

  lemma CommitKeepsIsolation(w: World, s: State, id: nat, acknowledged: bool)
    requires Isolated(w, s) && s.At(id).pc == Committing
    ensures Isolated(w, Next(w, s, Commit(id, acknowledged)))
  {
    var s' := Next(w, s, Commit(id, acknowledged));
    var d := s.At(id);
    hide Execute, TxOk, Covered, Merge, AllKept, Grows, Spec.Operate, Original, ReqOf;
    CommitterIsCovered(w, s, id);
    forall j: nat | j != id
      ensures AllKept(s.db, s'.db, s.At(j).tx.locks)
    {
      TxIsOk(w, s, j);
      assert s.At(id).tx.locks !! s.At(j).tx.locks;
      CommitKeepsOthersRows(w, s.db, d.tx, s.At(j).tx.locks);
    }
    CommitKeepsOthersRows(w, s.db, d.tx, {});
    TxIsOk(w, s, id);
    OutsideIsOk(w, s', id);
    OneMoves(w, s, s', id);
  }

  lemma OutsideIsOk(w: World, s: State, id: nat)
    requires !InTx(s.At(id).pc) && s.At(id).tx == NO_TX && (s.At(id).pc.Releasing? ==> s.At(id).holder.Some?)
    ensures TxOk(w, s.db, s.nextEntry, s.At(id))
  {}

  /** Claims change only for a key whose row nobody else has locked. */
  lemma ClaimWriteKeepsIsolation(w: World, s: State, s': State, id: nat, key: Key)
    requires Isolated(w, s) && s.nextEntry <= s'.nextEntry && Free(s, Some(ClaimRow(key)), id)
    requires s'.db == s.db.(claims := s'.db.claims)
    requires forall k :: k != key ==> Lookup(s'.db.claims, k) == Lookup(s.db.claims, k)
    requires forall j: nat :: j != id ==> s'.At(j) == s.At(j)
    requires s'.At(id).tx == NO_TX && TxOk(w, s'.db, s'.nextEntry, s'.At(id))
    ensures Isolated(w, s')
  {
    hide TxOk, Grows;
    forall j: nat | j != id
      ensures AllKept(s.db, s'.db, s.At(j).tx.locks)
    {
      assert ClaimRow(key) !in s.At(j).tx.locks;
    }
    assert Grows(s.db, s'.db) by {
      ClaimsDoNotShrinkTheRest(s.db, s'.db);
    }
    OneMoves(w, s, s', id);
  }

  lemma ClaimsDoNotShrinkTheRest(db: Database, db': Database)
    requires db' == db.(claims := db'.claims)
    ensures Grows(db, db')
  {}

  /** The facts a transaction has when it begins. */
  lemma BeginsWithNothing(w: World, db: Database, next: nat, d: InFlight)
    requires d.pc == Authorizing && d.tx == NO_TX && d.holder.Some? && Instruction.WellFormed(d.intent.instruction)
    ensures TxOk(w, db, next, d)
  {
    hide PayFacts, RecordFacts, Instruction.WellFormed;
  }

  lemma AcquireKeepsIsolation(w: World, s: State, id: nat, holder: Holder, at: int)
    requires Isolated(w, s) && Instruction.WellFormed(s.At(id).intent.instruction)
    requires Enabled(w, s, TryAcquire(id, holder, at))
    ensures Isolated(w, AfterAcquire(s, id, holder, at))
  {
    var s' := AfterAcquire(s, id, holder, at);
    hide TxOk, Isolated, Wants, Instruction.WellFormed, KeyOf;
    TxIsOk(w, s, id);
    if s'.At(id).pc == Authorizing {
      BeginsWithNothing(w, s'.db, s'.nextEntry, s'.At(id));
    } else {
      OutsideIsOk(w, s', id);
    }
    ClaimWriteKeepsIsolation(w, s, s', id, KeyIn(s.At(id)));
  }

  lemma ReleaseKeepsIsolation(w: World, s: State, id: nat, performed: bool)
    requires Isolated(w, s) && Enabled(w, s, Release(id, performed))
    ensures Isolated(w, Next(w, s, Release(id, performed)))
  {
    var s' := Next(w, s, Release(id, performed));
    hide TxOk, Isolated, Execute, Operated, Wants, LookedUp, Unsealed, Found, AfterCommit, AfterAcquire, Noted, Merge,
      KeyOf, TransientReply;
    TxIsOk(w, s, id);
    OutsideIsOk(w, s', id);
    if performed {
      ClaimWriteKeepsIsolation(w, s, s', id, KeyIn(s.At(id)));
    } else {
      NothingLockedOutside(w, s, s', id);
      MovingKeepsIsolation(w, s, s', id);
    }
  }

  lemma NothingLockedOutside(w: World, s: State, s': State, id: nat)
    requires s'.At(id).tx == NO_TX
    ensures forall j: nat :: s.At(j).tx.locks !! s'.At(id).tx.locks
  {}

  lemma FundKeeps(db: Database, unique: bool, reference: string, vpa: Vpa, amount: int, entry: nat, db': Database,
                  locks: set<Lock>)
    requires Spec.Operate(db, unique, Spec.Fund(reference, vpa, amount), entry) == Some(db') && entry !in db.entries
    requires locks !! OperatorLocks(Spec.Fund(reference, vpa, amount)) && IdentityOf(entry) !in locks
    ensures AllKept(db, db', locks) && Grows(db, db')
  {
    FundWrites(db, unique, reference, vpa, amount, entry, db');
    hide Spec.Operate, KeyTaken, Instruction.TopUpKey, Ledger.Precheck;
    forall l | l in locks
      ensures Kept(db, db', l)
    {
      if l.AccountRow? {
        FundTouchesTwoAccounts(db, unique, Instruction.TopUpKey(reference), vpa, amount, entry, db', l.vpa);
      } else if l.JournalRow? {
        OneMoreEntry(db.entries, entry, Entry(Instruction.TopUpKey(reference), TopUpEntry), l.key);
      }
    }
  }

  lemma FundTouchesTwoAccounts(db: Database, unique: bool, key: Key, vpa: Vpa, amount: int, entry: nat, db': Database,
                               other: Vpa)
    requires Ledger.Post(db, unique, db.accounts.Keys, key, TopUpEntry, Ledger.FundMovements(vpa, amount), entry)
               == Ok(db')
    requires other != HOUSE_VPA && other != vpa
    ensures Lookup(db'.accounts, other) == Lookup(db.accounts, other)
  {
    hide Ledger.Precheck, Ledger.MoveAll;
    var movements := Ledger.FundMovements(vpa, amount);
    Ledger.PrecheckFindsAll(db.accounts, db.accounts.Keys, movements);
    Ledger.MoveAllMeaning(db.accounts, movements);
    hide Ledger.NetChange, Ledger.BreaksCheck;
    Ledger.NetChangeAbsent(movements, other);
  }

  lemma OneMoreEntry(entries: map<nat, Entry>, id: nat, entry: Entry, k: Key)
    requires id !in entries && entry.key != k
    ensures KeyTaken(entries[id := entry], k) == KeyTaken(entries, k)
  {
    assert entries[id := entry] == entries + map[id := entry];
    KeyTakenAfter(entries, map[id := entry], k);
  }

  /** An operator's act changes only rows it has locked. */
  lemma OperatingKeeps(db: Database, unique: bool, act: Spec.OperatorAct, entry: nat, db': Database, locks: set<Lock>)
    requires Spec.Operate(db, unique, act, entry) == Some(db') && entry !in db.entries
    requires locks !! OperatorLocks(act) && IdentityOf(entry) !in locks
    ensures AllKept(db, db', locks) && Grows(db, db')
  {
    hide Ledger.Post;
    match act
    case Fund(reference, vpa, amount) => FundKeeps(db, unique, reference, vpa, amount, entry, db', locks);
    case _ =>
      assert OperatorLocks(act) !! locks;
  }

  lemma OperatorKeepsIsolation(w: World, s: State, act: Spec.OperatorAct)
    requires Isolated(w, s) && TablesGood(s) && NoneLocked(s, OperatorLocks(act))
    ensures Isolated(w, Operated(w, s, act))
  {
    hide TxOk, Spec.Operate, Consistent, AllKept, Grows, OperatorLocks;
    var s' := Operated(w, s, act);
    forall j: nat
      ensures TxOk(w, s'.db, s'.nextEntry, s'.At(j))
    {
      TxIsOk(w, s, j);
      if s'.db == s.db {
        SameTables(s.db, s.db, s.At(j).tx.locks);
      } else {
        OperatingKeeps(s.db, w.unique, act, s.nextEntry, s'.db, s.At(j).tx.locks);
      }
      TxOkIsStable(w, s.db, s.nextEntry, s'.db, s'.nextEntry, s.At(j));
    }
    assert forall j: nat :: s'.At(j) == s.At(j);
  }

  lemma StepKeepsIsolation(w: World, s: State, step: Step)
    requires Isolated(w, s) && TablesGood(s) && Enabled(w, s, step)
    requires forall i: nat :: s.At(i).pc == Acquiring ==> Instruction.WellFormed(s.At(i).intent.instruction)
    ensures Isolated(w, Next(w, s, step))
  {
    hide Isolated, TablesGood, Execute, Operated, LookedUp, Unsealed, Found, AfterCommit, AfterAcquire, Noted, Merge,
      ReqOf, KeyOf, Instruction.WellFormed, TransientReply, Wants, OperatorLocks, KeyRing.Extends;
    if step.Commit? {
      CommitUnfolds(w, s, step.id, step.acknowledged);
    }
    match step
    case Run(id) => RunKeepsIsolation(w, s, id);
    case Commit(id, acknowledged) => CommitKeepsIsolation(w, s, id, acknowledged);
    case Operate(act) => OperatorKeepsIsolation(w, s, act);
    case TryAcquire(id, holder, at) => AcquireKeepsIsolation(w, s, id, holder, at);
    case Release(id, performed) => ReleaseKeepsIsolation(w, s, id, performed);
    case Tick(_) => SameDeliveries(w, s, Next(w, s, step));
    case Rotate(_) => SameDeliveries(w, s, Next(w, s, step));
    case _ => LocalStepKeepsIsolation(w, s, step, step.id);
  }

  lemma SameDeliveries(w: World, s: State, s': State)
    requires Isolated(w, s) && s'.deliveries == s.deliveries && s'.db == s.db && s'.nextEntry == s.nextEntry
    ensures Isolated(w, s')
  {
    hide TxOk;
    assert forall i: nat :: s'.At(i) == s.At(i);
  }

  lemma LocalStepKeepsIsolation(w: World, s: State, step: Step, id: nat)
    requires Isolated(w, s) && Enabled(w, s, step)
    requires step.Arrive? || step.LookUp? || step.OpenEnvelope? || step.NoteFingerprint? || step.FindClaim?
             || step.Fail? || step.Crash?
    requires MoverOf(step) == Some(id)
    ensures Isolated(w, Next(w, s, step))
  {
    var s' := Next(w, s, step);
    hide TxOk, Isolated, Execute, Operated, Wants, AfterCommit, AfterAcquire, Merge, KeyIn, Released, Free, NoneLocked,
      Replay, InvalidReply, HeldReply, TransientReply, KnownDecision;
    TxIsOk(w, s, id);
    OutsideIsOk(w, s', id);
    NothingLockedOutside(w, s, s', id);
    MovingKeepsIsolation(w, s, s', id);
  }

  // ---------------------------------------------------------------------------------------------
  // The committed tables
  // ---------------------------------------------------------------------------------------------

  function EntryFor(s: State, tx: Tx): nat {
    if tx.path == ViaPaid then tx.entry else s.nextEntry
  }

  lemma CommitterIsSensible(w: World, s: State, id: nat)
    requires Isolated(w, s) && TablesGood(s) && s.At(id).pc == Committing
    ensures var d := s.At(id);
            && Facts(w, s.db, Committing, ReqOf(w, d), d.tx) && d.holder.Some?
            && Sensible(s.db, d.tx.visible, ReqOf(w, d), d.tx.auth, EntryFor(s, d.tx))
  {
    TxIsOk(w, s, id);
    hide FreshnessProblem, Registry.LimitProblem, Instruction.WellFormed, Consistent, IsShort, BothRows, Isolated,
      DecidedRow, RevokedRow, Registry.SpentRow;
  }

  /** In every reachable state a commit is the atomic decision, and the specification's one step. */
  lemma CommitIsOneStep(w: World, s: State, id: nat)
    requires Isolated(w, s) && TablesGood(s) && s.At(id).pc == Committing
    ensures var d := s.At(id);
            var db' := Merge(s.db, d.tx.pending);
            && Decide(s.db, w.unique, d.tx.visible, ReqOf(w, d), d.tx.auth, EntryFor(s, d.tx))
                == Committed(db', d.tx.verdict)
            && Spec.DecidesOnce(Spec.View(s.db), Spec.View(db'), ReqOf(w, d), d.tx.verdict)
            && Consistent(db')
            && d.holder.Some? && HeldBy(s.db.claims, KeyIn(d), HolderIn(d))
            && db'.claims == s.db.claims[KeyIn(d) := DecidedRow(HolderIn(d), d.tx.verdict)]
            && db'.fingerprints == s.db.fingerprints
  {
    var d := s.At(id);
    var req, entry := ReqOf(w, d), EntryFor(s, d.tx);
    var db' := Merge(s.db, d.tx.pending);
    CommitterIsSensible(w, s, id);
    NobodyIsOverdrawn(s.db);
    SensibleRequests(s.db, d.tx.visible, req, d.tx.auth, entry);
    CommittingHolds(w, s.db, req, d.tx);
    hide Facts, Sensible, Consistent, Decide, Merge, Spec.DecidesOnce, Spec.View, DecidedRow, Isolated,
      Instruction.WellFormed, Ledger.BooksBalance, NobodyOverdrawn, HeldBy;
    CommitIsAtomicDecision(w, s.db, req, d.tx, entry);
    DecisionKeepsConsistency(s.db, w.unique, d.tx.visible, req, d.tx.auth, entry, db', d.tx.verdict);
    DecisionIsOneStep(s.db, w.unique, d.tx.visible, req, d.tx.auth, entry, db', d.tx.verdict);
  }

  lemma CommittingHolds(w: World, db: Database, req: Request, tx: Tx)
    requires Facts(w, db, Committing, req, tx)
    ensures HeldBy(db.claims, req.key, req.holder)
  {
    hide Reasons, HasReceipt;
  }

  /** The step of the specification behind a step: only commits decide, only operators operate. */
  ghost predicate RefinesSpec(w: World, s: State, step: Step, s': State) {
    var a, b := Spec.View(s.db), Spec.View(s'.db);
    match step
    case Commit(id, _) => Spec.DecidesOnce(a, b, ReqOf(w, s.At(id)), s.At(id).tx.verdict)
    case Operate(_) => Spec.Operates(a, b)
    case _ => a == b
  }

  lemma CommitKeepsTables(w: World, s: State, id: nat, acknowledged: bool)
    requires Isolated(w, s) && TablesGood(s) && s.At(id).pc == Committing
    ensures TablesGood(Next(w, s, Commit(id, acknowledged)))
    ensures RefinesSpec(w, s, Commit(id, acknowledged), Next(w, s, Commit(id, acknowledged)))
  {
    hide Consistent, Spec.DecidesOnce, Spec.View, Facts, Isolated, Decide, Execute, Spec.Operate, Original, Merge;
    CommitIsOneStep(w, s, id);
    CommitterIsCovered(w, s, id);
    TxIsOk(w, s, id);
    EntriesAfterMerging(w, s.db, s.nextEntry, s.At(id).tx);
  }

  lemma EntriesAfterMerging(w: World, db: Database, next: nat, tx: Tx)
    requires Covered(w, db, tx) && LocksInRange(w, next, tx.locks)
    ensures forall e :: e in Merge(db, tx.pending).entries ==> e in db.entries || e < next
  {}

  lemma OperatorKeepsTables(w: World, s: State, act: Spec.OperatorAct)
    requires TablesGood(s)
    ensures TablesGood(Operated(w, s, act)) && Spec.Operates(Spec.View(s.db), Spec.View(Operated(w, s, act).db))
  {
    hide Consistent, Spec.Operate;
    var done := Spec.Operate(s.db, w.unique, act, s.nextEntry);
    if done.Some? {
      hide Spec.Operates;
      OperatingKeepsConsistency(s.db, w.unique, act, s.nextEntry, done.value);
    }
  }

  /** Every other step changes at most undecided claims and fingerprints, and nobody sees those. */
  lemma QuietStepRefines(w: World, s: State, step: Step)
    requires TablesGood(s) && !step.Commit? && !step.Operate?
    ensures TablesGood(Next(w, s, step)) && Spec.View(Next(w, s, step).db) == Spec.View(s.db)
    ensures SameDecisions(s.db.claims, Next(w, s, step).db.claims)
  {
    hide Consistent, Spec.View, Execute, Spec.Operate, Replay, HeldReply, InvalidReply, TransientReply, Upsert,
      Released, SameDecisions;
    var s' := Next(w, s, step);
    UnchangedDecisions(s.db);
    match step
    case TryAcquire(id, holder, at) =>
      if s'.db != s.db {
        ClaimingIsInvisible(s.db, s'.db.claims, KeyIn(s.At(id)), holder, at, DEFAULT_LEASE_MS);
      }
    case Release(id, performed) =>
      if performed {
        ClaimingIsInvisible(s.db, s'.db.claims, KeyIn(s.At(id)), HolderIn(s.At(id)), 0, 0);
      }
    case NoteFingerprint(id, _) => FingerprintIsInvisible(s.db, s'.db.fingerprints);
    case _ =>
  }

  /** Every step keeps the tables consistent, and only commits and operators change what is visible. */
  lemma StepRefinesSpec(w: World, s: State, step: Step)
    requires Isolated(w, s) && TablesGood(s) && Enabled(w, s, step)
    ensures TablesGood(Next(w, s, step))
    ensures RefinesSpec(w, s, step, Next(w, s, step))
  {
    hide Isolated, TablesGood, Spec.DecidesOnce, Spec.Operates, Spec.View, Operated, Next, Enabled, Merge, AfterCommit,
      ReqOf;
    match step
    case Commit(id, acknowledged) =>
      CommitUnfolds(w, s, id, acknowledged);
      CommitKeepsTables(w, s, id, acknowledged);
    case Operate(act) =>
      ActUnfolds(w, s, act);
      OperatorKeepsTables(w, s, act);
    case _ => QuietStepRefines(w, s, step);
  }

  // ---------------------------------------------------------------------------------------------
  // How a step moves its delivery
  // ---------------------------------------------------------------------------------------------

  predicate BeforeAcquire(pc: Pc) {
    pc.LookingUp? || pc.Opening? || pc.Noting? || pc.Acquiring? || pc.Finding?
  }

  /** A delivery after the step that moves it: what it keeps, and what it can have become. */
  ghost predicate Moved(w: World, s: State, step: Step, d: InFlight, d': InFlight) {
    match step
    case Arrive(_, _, _, _) =>
      && d == NOT_HERE && d' == InFlight(d'.wire, d'.ring, d'.now, LookingUp, NO_INTENT, None, NO_TX)
      && KeyRing.Extends(s.ring, d'.ring)
    case OpenEnvelope(_) =>
      && d.pc == Opening && d' == d.(pc := d'.pc, intent := d'.intent)
      && (if d'.pc == Noting then w.open(d.wire, d.ring) == Opened(d'.intent) else d'.pc.Done? && d'.intent == d.intent)
    case TryAcquire(_, holder, _) =>
      && d.pc == Acquiring
      && (d' == d.(pc := Finding) || d' == d.(pc := Authorizing, holder := Some(holder), tx := NO_TX))
    case Run(_) =>
      && InTx(d.pc) && d.pc != Committing && d' == d.(pc := d'.pc, tx := d'.tx)
      && (InTx(d'.pc) || (d'.pc.Releasing? && d'.tx == NO_TX))
    case _ =>
      && d' == d.(pc := d'.pc, tx := d'.tx) && !InTx(d'.pc) && (d'.tx == NO_TX || (d'.tx == d.tx && !InTx(d.pc)))
      && (BeforeAcquire(d'.pc) ==> BeforeAcquire(d.pc))
      && (HasIntent(d'.pc) ==> HasIntent(d.pc))
  }

  function NewHolder(step: Step): set<Holder> {
    match step
    case TryAcquire(_, holder, _) => {holder}
    case _ => {}
  }

  /** A step moves one delivery at most; the ring and the holder ids only grow. */
  ghost predicate Moves(w: World, s: State, step: Step, s': State) {
    && (forall i: nat :: MoverOf(step) != Some(i) ==> s'.At(i) == s.At(i))
    && (forall i: nat :: MoverOf(step) == Some(i) ==> Moved(w, s, step, s.At(i), s'.At(i)))
    && (if step.Rotate? then KeyRing.Extends(s'.ring, s.ring) else s'.ring == s.ring)
    && s'.holders == s.holders + NewHolder(step) && NewHolder(step) !! s.holders
  }

  lemma OthersStay(w: World, s: State, step: Step)
    requires Enabled(w, s, step)
    ensures var s' := Next(w, s, step);
            && (forall i: nat :: MoverOf(step) != Some(i) ==> s'.At(i) == s.At(i))
            && (if step.Rotate? then KeyRing.Extends(s'.ring, s.ring) else s'.ring == s.ring)
            && s'.holders == s.holders + NewHolder(step) && NewHolder(step) !! s.holders
  {
    hide Execute, Spec.Operate, Wants, LookedUp, Unsealed, Found, TransientReply, AfterCommit, Upsert, Released,
      Merge, ReqOf, Free, NoneLocked, OperatorLocks, InTx;
  }

  /** The steps that bring a delivery in, read its envelope, take its claim or run its transaction. */
  predicate LeadsOn(step: Step) {
    step.Arrive? || step.OpenEnvelope? || step.TryAcquire? || step.Run?
  }

  lemma LeadingOnMoves(w: World, s: State, step: Step, id: nat)
    requires Isolated(w, s) && Enabled(w, s, step) && MoverOf(step) == Some(id) && LeadsOn(step)
    ensures Moved(w, s, step, s.At(id), Next(w, s, step).At(id))
  {
    hide TxOk, Isolated, Execute, Wants, InvalidReply, Upsert, Released, Merge, ReqOf, Free, OperatorLocks, NoneLocked,
      LookedUp, Found, KeyIn, AfterCommit, Operated;
    TxIsOk(w, s, id);
    if step.Run? {
      EffectOfStatement(w, s.db, s.nextEntry, s.At(id));
    }
  }

  lemma OtherwiseMoves(w: World, s: State, step: Step, id: nat)
    requires Isolated(w, s) && Enabled(w, s, step) && MoverOf(step) == Some(id) && !LeadsOn(step)
    ensures Moved(w, s, step, s.At(id), Next(w, s, step).At(id))
  {
    hide TxOk, Isolated, Execute, Wants, Replay, HeldReply, TransientReply, Original, Released, Merge, ReqOf, Free,
      OperatorLocks, NoneLocked, KnownDecision, KeyIn, Unsealed, AfterAcquire, Operated, Noted;
    TxIsOk(w, s, id);
  }

  lemma StepMoves(w: World, s: State, step: Step)
    requires Isolated(w, s) && Enabled(w, s, step)
    ensures Moves(w, s, step, Next(w, s, step))
  {
    hide Isolated, Enabled, Next, Moved;
    OthersStay(w, s, step);
    if MoverOf(step).Some? {
      if LeadsOn(step) {
        LeadingOnMoves(w, s, step, MoverOf(step).value);
      } else {
        OtherwiseMoves(w, s, step, MoverOf(step).value);
      }
    }
  }

  /** Delivered bytes stay on record. */
  ghost predicate WiresKept(s: State, s': State) {
    forall i :: i in s.deliveries ==> i in s'.deliveries && s'.At(i).wire == s.At(i).wire
  }

  lemma WiresStay(w: World, s: State, step: Step)
    requires Isolated(w, s) && Enabled(w, s, step)
    ensures WiresKept(s, Next(w, s, step))
  {
    StepMoves(w, s, step);
    DeliveriesStay(w, s, step);
    hide Isolated, Next, HasIntent, BeforeAcquire, InTx, Free, NoneLocked, Wants;
    forall i | i in s.deliveries
      ensures Next(w, s, step).At(i).wire == s.At(i).wire
    {
      assert MoverOf(step) == Some(i) ==> Moved(w, s, step, s.At(i), Next(w, s, step).At(i));
    }
  }

  lemma DeliveriesStay(w: World, s: State, step: Step)
    ensures s.deliveries.Keys <= Next(w, s, step).deliveries.Keys
  {
    hide Execute, Spec.Operate, LookedUp, Unsealed, Found, TransientReply, AfterCommit, Upsert, Released, Merge, ReqOf,
      Noted, KeyIn;
  }

  // ---------------------------------------------------------------------------------------------
  // Claims
  // ---------------------------------------------------------------------------------------------

  /**
   * A claim is taken by the acquiring delivery, decided by the committing delivery that holds it, or
   * released undecided; every other row stays.
   */
  ghost predicate ClaimsMove(s: State, step: Step, s': State) {
    var a, b := s.db.claims, s'.db.claims;
    match step
    case TryAcquire(id, holder, at) =>
      var key := KeyIn(s.At(id));
      if Takeable(a, key, at)
      then b == TakenBy(a, key, holder, at + DEFAULT_LEASE_MS) && s'.At(id).holder == Some(holder)
      else b == a && s'.At(id).pc == Finding
    case Commit(id, _) =>
      && s.At(id).holder.Some? && HeldBy(a, KeyIn(s.At(id)), HolderIn(s.At(id)))
      && b == a[KeyIn(s.At(id)) := DecidedRow(HolderIn(s.At(id)), s.At(id).tx.verdict)]
    case Release(id, performed) => b == if performed then Released(a, KeyIn(s.At(id)), HolderIn(s.At(id))) else a
    case _ => b == a
  }

  lemma CommitMovesClaims(w: World, s: State, id: nat, acknowledged: bool)
    requires Isolated(w, s) && TablesGood(s) && s.At(id).pc == Committing
    ensures ClaimsMove(s, Commit(id, acknowledged), Next(w, s, Commit(id, acknowledged)))
    ensures Next(w, s, Commit(id, acknowledged)).db.fingerprints == s.db.fingerprints
  {
    hide Isolated, TablesGood, Execute, Operated, AfterAcquire, Unsealed, LookedUp, Found, TransientReply, Released,
      AfterCommit, Noted, Merge, HeldBy, DecidedRow, HolderIn, KeyIn, ReqOf, Decide, Spec.View, Spec.DecidesOnce,
      Consistent;
    CommitIsOneStep(w, s, id);
  }

  /** Only noting a fingerprint stores one: that of its own bytes, for the payment inside them. */
  ghost predicate FingerprintsMove(w: World, s: State, step: Step, s': State) {
    var a, b := s.db.fingerprints, s'.db.fingerprints;
    match step
    case NoteFingerprint(id, _) =>
      s.At(id).pc == Noting && (b == a || b == a[w.fingerprint(s.At(id).wire) := KeyIn(s.At(id))])
    case _ => b == a
  }

  lemma StepMovesClaims(w: World, s: State, step: Step)
    requires Isolated(w, s) && TablesGood(s) && Enabled(w, s, step)
    ensures ClaimsMove(s, step, Next(w, s, step)) && FingerprintsMove(w, s, step, Next(w, s, step))
  {
    hide Isolated, TablesGood, Execute, Spec.Operate, Unsealed, LookedUp, Found, TransientReply, AfterCommit, Released,
      Merge, ReqOf, Free, NoneLocked, OperatorLocks, Takeable, TakenBy, Wants, HeldBy, DecidedRow, KeyIn, HolderIn,
      InTx;
    match step
    case Commit(id, acknowledged) => CommitMovesClaims(w, s, id, acknowledged);
    case Operate(act) =>
      if Spec.Operate(s.db, w.unique, act, s.nextEntry).Some? {
        EffectOfOperating(s.db, w.unique, act, s.nextEntry, Next(w, s, step).db);
      }
    case _ =>
  }

  // ---------------------------------------------------------------------------------------------
  // Who holds what
  // ---------------------------------------------------------------------------------------------

  /** A holder id names one delivery and, through it, one payment. */
  ghost predicate WellHeld(s: State) {
    && (forall i: nat :: BeforeAcquire(s.At(i).pc) ==> s.At(i).holder.None?)
    && (forall i: nat :: s.At(i).holder.Some? ==> HolderIn(s.At(i)) in s.holders)
    && (forall i: nat, j: nat :: i != j && s.At(i).holder.Some? ==> s.At(i).holder != s.At(j).holder)
    && (forall k :: k in s.db.claims ==> s.db.claims[k].holder in s.holders)
    && (forall i: nat, k :: k in s.db.claims && s.At(i).holder == Some(s.db.claims[k].holder) ==> k == KeyIn(s.At(i)))
  }

  lemma StepKeepsHolders(w: World, s: State, step: Step)
    requires Isolated(w, s) && TablesGood(s) && WellHeld(s) && Enabled(w, s, step)
    ensures WellHeld(Next(w, s, step))
  {
    hide *;
    StepMoves(w, s, step);
    StepMovesClaims(w, s, step);
    MovesKeepHolders(w, s, step, Next(w, s, step));
  }

  /** But for an acquire, claims keep their holders, and deliveries their holder ids and what those are for. */
  ghost predicate HoldersKept(s: State, s': State) {
    && s'.holders == s.holders
    && (forall k :: k in s'.db.claims ==> k in s.db.claims && s'.db.claims[k].holder == s.db.claims[k].holder)
    && (forall i: nat ::
          && s'.At(i).holder == s.At(i).holder
          && (s.At(i).holder.Some? ==> KeyIn(s'.At(i)) == KeyIn(s.At(i)))
          && (BeforeAcquire(s'.At(i).pc) ==> s.At(i).holder.None?))
  }

  lemma MovesKeepHolders(w: World, s: State, step: Step, s': State)
    requires WellHeld(s) && Moves(w, s, step, s') && ClaimsMove(s, step, s')
    ensures WellHeld(s')
  {
    if step.TryAcquire? {
      AcquireKeepsHolders(w, s, step.id, step.holder, step.at, s');
    } else {
      OthersKeepHolders(w, s, step, s');
      hide Moves, ClaimsMove, KeyIn;
    }
  }

  lemma OthersKeepHolders(w: World, s: State, step: Step, s': State)
    requires WellHeld(s) && Moves(w, s, step, s') && ClaimsMove(s, step, s') && !step.TryAcquire?
    ensures HoldersKept(s, s')
  {
    hide KeyOf, Takeable, HolderIn, Replay, HasIntent, KeyRing.Extends;
  }

  lemma AcquireKeepsHolders(w: World, s: State, id: nat, holder: Holder, at: int, s': State)
    requires WellHeld(s) && Moves(w, s, TryAcquire(id, holder, at), s')
    requires ClaimsMove(s, TryAcquire(id, holder, at), s')
    ensures WellHeld(s')
  {
    hide KeyOf, Takeable;
    assert s.At(id).holder.None?;
  }

  // ---------------------------------------------------------------------------------------------
  // What is inside an envelope
  // ---------------------------------------------------------------------------------------------

  /** These bytes hash to the fingerprint and hold a payment with this key. */
  ghost predicate Explains(w: World, ring: KeyRing.Ring, wire: bytes, fp: Fingerprint, key: Key) {
    w.fingerprint(wire) == fp && Inside(w, wire, ring) == Some(key)
  }

  /** Every stored fingerprint names the payment inside the bytes it is of. */
  ghost predicate FingerprintsTrue(w: World, ring: KeyRing.Ring, fingerprints: map<Fingerprint, Key>) {
    forall fp :: fp in fingerprints ==> exists wire :: Explains(w, ring, wire, fp, fingerprints[fp])
  }

  /** Deliveries hold what their bytes say, and a fingerprint names the payment inside its bytes. */
  ghost predicate Faithful(w: World, s: State) {
    && (forall i: nat :: KeyRing.Extends(s.ring, s.At(i).ring))
    && (forall i: nat :: HasIntent(s.At(i).pc) || s.At(i).holder.Some? ==>
          w.open(s.At(i).wire, s.At(i).ring) == Opened(s.At(i).intent))
    && FingerprintsTrue(w, s.ring, s.db.fingerprints)
  }

  /** What one process has read, the service goes on reading. */
  lemma ReadingIsStable(w: World, small: KeyRing.Ring, large: KeyRing.Ring, wire: bytes)
    requires Sound(w) && KeyRing.Extends(large, small) && w.open(wire, small).Opened?
    ensures w.open(wire, large) == w.open(wire, small) && Inside(w, wire, large) == Inside(w, wire, small)
  {}

  lemma DeliveryReads(w: World, s: State, id: nat)
    requires Sound(w) && Faithful(w, s) && (HasIntent(s.At(id).pc) || s.At(id).holder.Some?)
    ensures w.open(s.At(id).wire, s.At(id).ring) == w.open(s.At(id).wire, s.ring) == Opened(s.At(id).intent)
    ensures Inside(w, s.At(id).wire, s.ring) == Some(KeyIn(s.At(id)))
    ensures Instruction.WellFormed(s.At(id).intent.instruction)
  {
    ReadingIsStable(w, s.At(id).ring, s.ring, s.At(id).wire);
    assert Instruction.WellFormed(w.open(s.At(id).wire, s.ring).intent.instruction);
  }

  lemma FingerprintNamesThePayment(w: World, ring: KeyRing.Ring, fingerprints: map<Fingerprint, Key>, wire: bytes)
    requires Sound(w) && FingerprintsTrue(w, ring, fingerprints) && w.fingerprint(wire) in fingerprints
    ensures Inside(w, wire, ring) == Some(fingerprints[w.fingerprint(wire)])
  {
    var fp := w.fingerprint(wire);
    var seen :| Explains(w, ring, seen, fp, fingerprints[fp]);
    assert seen == wire;
  }

  lemma NotedFingerprintsAreTrue(w: World, ring: KeyRing.Ring, fps: map<Fingerprint, Key>, wire: bytes, key: Key)
    requires FingerprintsTrue(w, ring, fps) && Explains(w, ring, wire, w.fingerprint(wire), key)
    ensures FingerprintsTrue(w, ring, fps[w.fingerprint(wire) := key])
  {}

  lemma MoreKeysKeepFingerprints(w: World, small: KeyRing.Ring, large: KeyRing.Ring, fps: map<Fingerprint, Key>)
    requires Sound(w) && FingerprintsTrue(w, small, fps) && KeyRing.Extends(large, small)
    ensures FingerprintsTrue(w, large, fps)
  {
    forall fp | fp in fps
      ensures exists wire :: Explains(w, large, wire, fp, fps[fp])
    {
      var wire :| Explains(w, small, wire, fp, fps[fp]);
      ReadingIsStable(w, small, large, wire);
      assert Explains(w, large, wire, fp, fps[fp]);
    }
  }

  lemma StepKeepsFaith(w: World, s: State, step: Step)
    requires Sound(w) && Isolated(w, s) && TablesGood(s) && WellHeld(s) && Faithful(w, s) && Enabled(w, s, step)
    ensures Faithful(w, Next(w, s, step))
  {
    hide *;
    StepMoves(w, s, step);
    StepMovesClaims(w, s, step);
    MovesKeepFaith(w, s, step, Next(w, s, step));
  }

  lemma MovesKeepFaith(w: World, s: State, step: Step, s': State)
    requires Sound(w) && WellHeld(s) && Faithful(w, s) && Moves(w, s, step, s') && FingerprintsMove(w, s, step, s')
    ensures Faithful(w, s')
  {
    forall i: nat
      ensures KeyRing.Extends(s'.ring, s'.At(i).ring)
      ensures HasIntent(s'.At(i).pc) || s'.At(i).holder.Some? ==>
                w.open(s'.At(i).wire, s'.At(i).ring) == Opened(s'.At(i).intent)
    {
      hide FingerprintsTrue, KeyIn;
    }
    FingerprintsStayTrue(w, s, step, s');
  }

  lemma FingerprintsStayTrue(w: World, s: State, step: Step, s': State)
    requires Sound(w) && Faithful(w, s) && Moves(w, s, step, s') && FingerprintsMove(w, s, step, s')
    ensures FingerprintsTrue(w, s'.ring, s'.db.fingerprints)
  {
    hide FingerprintsTrue, Moved, KeyIn;
    match step
    case NoteFingerprint(id, _) =>
      var d := s.At(id);
      DeliveryReads(w, s, id);
      NotedFingerprintsAreTrue(w, s.ring, s.db.fingerprints, d.wire, KeyIn(d));
    case Rotate(_) => MoreKeysKeepFingerprints(w, s.ring, s'.ring, s.db.fingerprints);
    case _ =>
  }

  // ---------------------------------------------------------------------------------------------
  // Replies
  // ---------------------------------------------------------------------------------------------

  /**
   * A reply that announces a decision says what the claim on the payment in its envelope records; any
   * other reply keeps the bridge's copy exactly when the bytes could be read.
   */
  ghost predicate IsTrue(w: World, ring: KeyRing.Ring, claims: map<Key, Claim>, d: InFlight, reply: Reply) {
    if Announces(reply) then
      && reply.key.Some? && Inside(w, d.wire, ring) == reply.key && DecidedIn(claims, reply.key.value)
      && reply.(isReplay := true) == Replay(reply.key.value, claims[reply.key.value])
      && (!reply.isReplay ==> d.holder == Some(claims[reply.key.value].holder))
    else
      reply.bridgeShouldRetain <==> w.open(d.wire, d.ring).Opened?
  }

  ghost predicate Truthful(w: World, ring: KeyRing.Ring, claims: map<Key, Claim>, d: InFlight) {
    match d.pc
    case Done(reply) => IsTrue(w, ring, claims, d, reply)
    case _ => true
  }

  ghost predicate RepliesTrue(w: World, s: State) {
    forall i: nat :: Truthful(w, s.ring, s.db.claims, s.At(i))
  }

  /** A decision, once committed, is never changed. */
  ghost predicate DecisionsKept(a: map<Key, Claim>, b: map<Key, Claim>) {
    forall k :: DecidedIn(a, k) ==> k in b && b[k] == a[k]
  }

  lemma ClaimsMovesKeepDecisions(s: State, step: Step, s': State)
    requires ClaimsMove(s, step, s')
    ensures DecisionsKept(s.db.claims, s'.db.claims)
  {
    hide KeyIn, HolderIn, DecidedRow;
  }

  lemma TruthIsStable(w: World, ring: KeyRing.Ring, ring': KeyRing.Ring, a: map<Key, Claim>, b: map<Key, Claim>,
                      d: InFlight)
    requires Sound(w) && Truthful(w, ring, a, d) && KeyRing.Extends(ring', ring) && DecisionsKept(a, b)
    ensures Truthful(w, ring', b, d)
  {
    hide Replay, KeyOf, Instruction.WellFormed;
  }

  lemma LookUpIsTrue(w: World, s: State, id: nat)
    requires Sound(w) && Faithful(w, s)
    ensures Truthful(w, s.ring, s.db.claims, LookedUp(w, s.db, s.At(id)))
  {
    hide KeyOf, Faithful, Sound;
    var d := s.At(id);
    if w.fingerprint(d.wire) in s.db.fingerprints {
      FaithfulFingerprints(w, s);
      FingerprintNamesThePayment(w, s.ring, s.db.fingerprints, d.wire);
    }
  }

  lemma CommitIsTrue(w: World, s: State, id: nat, acknowledged: bool)
    requires Sound(w) && Isolated(w, s) && TablesGood(s) && Faithful(w, s) && s.At(id).pc == Committing
    ensures Truthful(w, s.ring, Merge(s.db, s.At(id).tx.pending).claims, AfterCommit(s.At(id), acknowledged))
  {
    hide Isolated, TablesGood, KeyOf, Faithful, Sound, Merge, Decide, Spec.View, Spec.DecidesOnce, Consistent, ReqOf;
    var d := s.At(id);
    DeliveryReads(w, s, id);
    CommitIsOneStep(w, s, id);
    ReplayRebuildsTheReply(KeyIn(d), HolderIn(d), d.tx.verdict);
  }

  /** The step answers its delivery truly. */
  lemma AnswerIsTrue(w: World, s: State, step: Step, id: nat)
    requires Sound(w) && Isolated(w, s) && TablesGood(s) && Faithful(w, s) && Enabled(w, s, step)
    requires MoverOf(step) == Some(id)
    ensures var s' := Next(w, s, step); Truthful(w, s'.ring, s'.db.claims, s'.At(id))
  {
    hide Isolated, TablesGood, Execute, Operated, Merge, ReqOf, Free, NoneLocked, OperatorLocks, Takeable, TakenBy,
      Wants, KeyOf, Faithful, Sound, Instruction.WellFormed, LookedUp, AfterCommit;
    if HasIntent(s.At(id).pc) {
      DeliveryReads(w, s, id);
    }
    match step
    case LookUp(_) => LookUpIsTrue(w, s, id);
    case Commit(_, acknowledged) => CommitIsTrue(w, s, id, acknowledged);
    case Run(_) => LeadingOnMoves(w, s, step, id);
    case _ =>
  }

  lemma FaithfulFingerprints(w: World, s: State)
    requires Faithful(w, s)
    ensures FingerprintsTrue(w, s.ring, s.db.fingerprints)
  {}

  lemma StepKeepsReplies(w: World, s: State, step: Step)
    requires Sound(w) && Isolated(w, s) && TablesGood(s) && Faithful(w, s) && RepliesTrue(w, s) && Enabled(w, s, step)
    ensures RepliesTrue(w, Next(w, s, step))
    ensures DecisionsKept(s.db.claims, Next(w, s, step).db.claims)
  {
    hide Sound, Isolated, TablesGood, Faithful, Enabled, Next, Truthful, ClaimsMove, FingerprintsMove, Moved,
      DecisionsKept;
    var s' := Next(w, s, step);
    StepMoves(w, s, step);
    StepMovesClaims(w, s, step);
    ClaimsMovesKeepDecisions(s, step, s');
    forall i: nat
      ensures Truthful(w, s'.ring, s'.db.claims, s'.At(i))
    {
      if MoverOf(step) == Some(i) {
        AnswerIsTrue(w, s, step, i);
      } else {
        TruthIsStable(w, s.ring, s'.ring, s.db.claims, s'.db.claims, s.At(i));
      }
    }
  }
}
