/**
 * Funding beside the deliveries, one lock at a time, and why none of them deadlock. An operator's fund is
 * a post like a payment's transfer: it locks its account rows in ascending order, enters the journal, and
 * commits. Payments and funds all lock upwards, accounts by name, so waiting always points upwards.
 */
module Deadlock {
  import opened Wrappers
  import opened Tables
  import opened Ingest
  import opened Protocol
  import opened Isolation
  import opened Safety
  import opened Runs
  import opened Waiting
  import Claims
  import Consistency
  import History
  import Instruction
  import Ledger
  import Progress
  import Receipts
  import Registry
  import Spec
  import Text

  // ---------------------------------------------------------------------------------------------
  // Open funds
  // ---------------------------------------------------------------------------------------------

  datatype FundStage = TakingRows | EnteringJournal | Written

  /** An open fund: the rows its SELECT found, how many of them it has locked, and how far it is. */
  datatype OpenFund = OpenFund(reference: string, vpa: Vpa, amount: int, rows: seq<Vpa>, taken: nat, stage: FundStage)

  /** In place of a fund that is not open. */
  const NO_FUND: OpenFund := OpenFund("", "", 1, [], 0, TakingRows)

  /** The service with its open funds. */
  datatype Joint = Joint(base: State, funds: map<nat, OpenFund>) {
    function At(p: nat): OpenFund {
      if p in funds then funds[p] else NO_FUND
    }
  }

  function ActOf(f: OpenFund): Spec.OperatorAct {
    Spec.Fund(f.reference, f.vpa, f.amount)
  }

  function MovementsFor(f: OpenFund): seq<Ledger.Movement> {
    Ledger.FundMovements(f.vpa, f.amount)
  }

  function JournalKey(f: OpenFund): Key {
    Instruction.TopUpKey(f.reference)
  }

  /** The names among these that the SELECT's snapshot holds, in the same order. */
  function Found(names: seq<Vpa>, visible: set<Vpa>): (r: seq<Vpa>)
    ensures forall v :: v in r <==> v in names && v in visible
  {
    if names == [] then [] else
      assert forall v :: v in names <==> v == names[0] || v in names[1..];
      (if names[0] in visible then [names[0]] else []) + Found(names[1..], visible)
  }

  lemma {:induction false} FoundAscends(names: seq<Vpa>, visible: set<Vpa>)
    requires Text.Ascending(names)
    ensures Text.Ascending(Found(names, visible))
  {
    if names != [] {
      FoundAscends(names[1..], visible);
      var rest := Found(names[1..], visible);
      if names[0] in visible {
        forall j | 0 <= j < |rest|
          ensures Text.Less(names[0], rest[j])
        {
          assert rest[j] in names[1..];
          var i :| 0 <= i < |names[1..]| && names[1..][i] == rest[j];
          assert Text.Less(names[0], names[i + 1]);
        }
        Text.ConsAscends(names[0], rest);
      } else {
        assert Found(names, visible) == rest;
      }
    }
  }

  /** The lock a fund's next statement must take. */
  function WantedByFund(w: World, f: OpenFund): Option<Lock> {
    match f.stage
    case TakingRows => if f.taken < |f.rows| then Some(AccountRow(f.rows[f.taken])) else None
    case EnteringJournal => if w.unique then Some(JournalRow(JournalKey(f))) else None
    case Written => None
  }

  function Held(w: World, f: OpenFund): set<Lock> {
    (set i: nat | i < f.taken && i < |f.rows| :: AccountRow(f.rows[i]))
    + if f.stage == Written && w.unique then {JournalRow(JournalKey(f))} else {}
  }

  // ---------------------------------------------------------------------------------------------
  // Steps
  // ---------------------------------------------------------------------------------------------

  datatype JointStep =
    | Base(step: Step)
    | Open(id: nat, reference: string, vpa: Vpa, amount: int)
    | Advance(id: nat)
    | Abort(id: nat)

  /** The rows that a step of the service must lock. */
  function StepLocks(w: World, s: State, step: Step): set<Lock> {
    match step
    case Run(id) => if Wants(w, s.db, s.At(id)).Some? then {Wants(w, s.db, s.At(id)).value} else {}
    case Operate(act) => OperatorLocks(act)
    case _ => {}
  }

  /** No fund but `id` has locked any of these. */
  ghost predicate FreeOfFunds(w: World, j: Joint, locks: set<Lock>, id: Option<nat>) {
    forall p: nat :: id != Some(p) ==> Held(w, j.At(p)) !! locks
  }

  function AsSet(want: Option<Lock>): set<Lock> {
    if want.Some? then {want.value} else {}
  }

  ghost predicate JointEnabled(w: World, j: Joint, step: JointStep) {
    match step
    case Base(s) => Enabled(w, j.base, s) && FreeOfFunds(w, j, StepLocks(w, j.base, s), None)
    case Open(id, _, _, amount) => id !in j.funds && amount > 0
    case Advance(id) =>
      && id in j.funds && NoneLocked(j.base, AsSet(WantedByFund(w, j.At(id))))
      && FreeOfFunds(w, j, AsSet(WantedByFund(w, j.At(id))), Some(id))
    case Abort(id) => id in j.funds
  }

  /** Every row was found, and none of them would be overdrawn. */
  predicate Checks(db: Database, f: OpenFund) {
    && f.rows == Ledger.LockOrder(MovementsFor(f))
    && forall v :: v in f.rows ==>
        v in db.accounts && !Ledger.Overdrawn(db.accounts[v], Ledger.NetChange(MovementsFor(f), v))
  }

  function Close(j: Joint, id: nat): Joint {
    j.(funds := j.funds - {id})
  }

  /** One statement of a fund. A failed check or a used key rolls it back; the last statement commits. */
  function DoAdvance(w: World, j: Joint, id: nat): Joint {
    var f := j.At(id);
    match f.stage
    case TakingRows =>
      if f.taken < |f.rows| then j.(funds := j.funds[id := f.(taken := f.taken + 1)])
      else if Checks(j.base.db, f) then j.(funds := j.funds[id := f.(stage := EnteringJournal)])
      else Close(j, id)
    case EnteringJournal =>
      if w.unique && KeyTaken(j.base.db.entries, JournalKey(f)) then Close(j, id)
      else j.(funds := j.funds[id := f.(stage := Written)])
    case Written => Close(j, id).(base := Operated(w, j.base, ActOf(f)))
  }

  function JointNext(w: World, j: Joint, step: JointStep): Joint {
    match step
    case Base(s) => j.(base := Next(w, j.base, s))
    case Open(id, reference, vpa, amount) =>
      var rows := Found(Ledger.LockOrder(Ledger.FundMovements(vpa, amount)), j.base.db.accounts.Keys);
      j.(funds := j.funds[id := OpenFund(reference, vpa, amount, rows, 0, TakingRows)])
    case Advance(id) => DoAdvance(w, j, id)
    case Abort(id) => Close(j, id)
  }

  datatype JointRun = JointRunOf(state: nat -> Joint, step: nat -> JointStep) {
    function After(n: nat): Joint {
      state(n + 1)
    }
  }

  ghost predicate JointFollows(w: World, r: JointRun, n: nat) {
    JointEnabled(w, r.state(n), r.step(n)) && r.After(n) == JointNext(w, r.state(n), r.step(n))
  }

  ghost predicate IsJointRun(w: World, r: JointRun) {
    Initial(r.state(0).base) && r.state(0).funds == map[] && forall n: nat :: JointFollows(w, r, n)
  }

  // ---------------------------------------------------------------------------------------------
  // What an open fund knows, and who else can touch it
  // ---------------------------------------------------------------------------------------------

  /** A fund locks upwards, and what it has checked under its locks is still so. */
  ghost predicate FundOk(w: World, db: Database, f: OpenFund) {
    && f.amount > 0 && f.taken <= |f.rows| && Text.Ascending(f.rows)
    && (f.stage != TakingRows ==> f.taken == |f.rows| && Checks(db, f))
    && (f.stage == Written && w.unique ==> !KeyTaken(db.entries, JournalKey(f)))
  }

  ghost predicate FundsOk(w: World, j: Joint) {
    && (forall p: nat :: FundOk(w, j.base.db, j.At(p)))
    && (forall p: nat, q: nat :: p != q ==> Held(w, j.At(p)) !! Held(w, j.At(q)))
    && (forall p: nat, i: nat :: Held(w, j.At(p)) !! j.base.At(i).tx.locks)
  }

  ghost predicate JointOk(w: World, j: Joint) {
    Safe(w, j.base) && FundsOk(w, j)
  }

  lemma HeldKinds(w: World, f: OpenFund)
    ensures forall l :: l in Held(w, f) ==> l.AccountRow? || (l.JournalRow? && w.unique)
  {}

  lemma FundOkIsStable(w: World, db: Database, db': Database, f: OpenFund)
    requires FundOk(w, db, f) && AllKept(db, db', Held(w, f))
    ensures FundOk(w, db', f)
  {
    hide KeyTaken, Text.Ascending, Ledger.LockOrder, Ledger.NetChange, Ledger.Overdrawn;
    if f.stage != TakingRows {
      forall v | v in f.rows
        ensures Lookup(db.accounts, v) == Lookup(db'.accounts, v)
      {
        var i: nat :| i < |f.rows| && f.rows[i] == v;
        assert AccountRow(f.rows[i]) in Held(w, f);
        assert Kept(db, db', AccountRow(v));
      }
    }
    if f.stage == Written && w.unique {
      assert Kept(db, db', JournalRow(JournalKey(f)));
    }
  }

  /** No step of the service changes an account or a journal key that somebody else has locked. */
  lemma StepKeepsRows(w: World, s: State, step: Step, locks: set<Lock>)
    requires Safe(w, s) && Enabled(w, s, step) && locks !! StepLocks(w, s, step)
    requires forall l :: l in locks ==> l.AccountRow? || (l.JournalRow? && w.unique)
    requires forall i: nat :: locks !! s.At(i).tx.locks
    ensures AllKept(s.db, Next(w, s, step).db, locks)
  {
    hide Isolated, TablesGood, WellHeld, Faithful, RepliesTrue, History.HistoryTrue, Enabled, Next, AfterCommit, Merge,
      AllKept, Grows, Covered, ReqOf, Wants, Operated, Spec.View, Consistency.SameDecisions, OperatorLocks;
    match step
    case Commit(id, acknowledged) =>
      CommitUnfolds(w, s, id, acknowledged);
      CommitterIsCovered(w, s, id);
      CommitKeepsOthersRows(w, s.db, s.At(id).tx, locks);
    case Operate(act) =>
      ActUnfolds(w, s, act);
      OperatorKeepsRows(w, s, act, locks);
    case _ =>
      QuietStepRefines(w, s, step);
      SameRows(s.db, Next(w, s, step).db, locks);
  }

  lemma SameRows(db: Database, db': Database, locks: set<Lock>)
    requires Spec.View(db) == Spec.View(db') && forall l :: l in locks ==> l.AccountRow? || l.JournalRow?
    ensures AllKept(db, db', locks)
  {
    assert Spec.View(db).accounts == Spec.View(db').accounts && Spec.View(db).entries == Spec.View(db').entries;
  }

  lemma OperatorKeepsRows(w: World, s: State, act: Spec.OperatorAct, locks: set<Lock>)
    requires TablesGood(s) && locks !! OperatorLocks(act) && forall l :: l in locks ==> l.AccountRow? || l.JournalRow?
    ensures AllKept(s.db, Operated(w, s, act).db, locks)
  {
    hide Spec.Operate, AllKept, Grows, Consistency.Consistent, OperatorLocks;
    var done := Spec.Operate(s.db, w.unique, act, s.nextEntry);
    if done.Some? {
      OperatingKeeps(s.db, w.unique, act, s.nextEntry, done.value, locks);
    } else {
      SameTables(s.db, s.db, locks);
    }
  }

  /** A step of the service locks only what it had to wait for, and a fresh identity. */
  lemma StepLocksItsOwn(w: World, s: State, step: Step, i: nat)
    requires Safe(w, s) && Enabled(w, s, step)
    ensures forall l :: l in Next(w, s, step).At(i).tx.locks ==>
              l in s.At(i).tx.locks || l in StepLocks(w, s, step) || l.IdentityOf?
  {
    hide Isolated, TablesGood, WellHeld, Faithful, RepliesTrue, History.HistoryTrue, Next, Enabled, Execute, Wants,
      ReqOf, Moved;
    if step == Run(i) {
      TxIsOk(w, s, i);
      RunIsAStatement(w, s, i);
    } else {
      StepMoves(w, s, step);
      if MoverOf(step) == Some(i) {
        LocksOnlyFall(w, s, step, i, s.At(i), Next(w, s, step).At(i));
      }
    }
  }

  lemma RunIsAStatement(w: World, s: State, i: nat)
    requires Isolated(w, s) && Enabled(w, s, Run(i))
    ensures StatementMoves(w, s.db, s.nextEntry, s.At(i), Next(w, s, Run(i)).At(i))
  {
    hide Isolated, Execute, Wants, Free, Next, TxOk;
    TxIsOk(w, s, i);
    Progress.RunUnfolds(w, s, i);
    EffectOfStatement(w, s.db, s.nextEntry, s.At(i));
  }

  lemma LocksOnlyFall(w: World, s: State, step: Step, i: nat, d: InFlight, d': InFlight)
    requires Moved(w, s, step, d, d') && MoverOf(step) == Some(i) && step != Run(i)
    ensures d'.tx == NO_TX || d'.tx == d.tx
  {}

  // ---------------------------------------------------------------------------------------------
  // Every joint step keeps this
  // ---------------------------------------------------------------------------------------------

  lemma BaseStepIsOk(w: World, j: Joint, step: Step)
    requires Sound(w) && JointOk(w, j) && JointEnabled(w, j, Base(step))
    ensures JointOk(w, JointNext(w, j, Base(step)))
  {
    hide Safe, Next, Enabled, FundOk, AllKept, Held, StepLocks, DoAdvance, Sound;
    var s' := Next(w, j.base, step);
    StepIsSafe(w, j.base, step);
    forall p: nat
      ensures FundOk(w, s'.db, j.At(p))
      ensures forall i: nat :: Held(w, j.At(p)) !! s'.At(i).tx.locks
    {
      HeldKinds(w, j.At(p));
      StepKeepsRows(w, j.base, step, Held(w, j.At(p)));
      FundOkIsStable(w, j.base.db, s'.db, j.At(p));
      forall i: nat
        ensures Held(w, j.At(p)) !! s'.At(i).tx.locks
      {
        StepLocksItsOwn(w, j.base, step, i);
      }
    }
    assert forall p: nat :: JointNext(w, j, Base(step)).At(p) == j.At(p);
  }

  lemma ClosingIsOk(w: World, j: Joint, id: nat)
    requires JointOk(w, j)
    ensures JointOk(w, Close(j, id))
  {
    hide Safe, FundOk, Held;
    NoFundIsOk(w, j.base.db);
    assert forall p: nat :: Close(j, id).At(p) == if p == id then NO_FUND else j.At(p);
  }

  lemma NoFundIsOk(w: World, db: Database)
    ensures FundOk(w, db, NO_FUND) && Held(w, NO_FUND) == {}
  {}

  /** A fund that goes on has the locks it had and the one it wanted. */
  ghost predicate GoesOnAs(w: World, db: Database, f: OpenFund, f': OpenFund) {
    FundOk(w, db, f') && forall l :: l in Held(w, f') ==> l in Held(w, f) || WantedByFund(w, f) == Some(l)
  }

  lemma MovingOnIsOk(w: World, j: Joint, id: nat, f': OpenFund)
    requires JointOk(w, j) && GoesOnAs(w, j.base.db, j.At(id), f')
    requires NoneLocked(j.base, AsSet(WantedByFund(w, j.At(id))))
    requires FreeOfFunds(w, j, AsSet(WantedByFund(w, j.At(id))), Some(id))
    ensures JointOk(w, j.(funds := j.funds[id := f']))
  {
    hide Safe, FundOk, Held, WantedByFund;
    var j' := j.(funds := j.funds[id := f']);
    assert forall p: nat :: j'.At(p) == if p == id then f' else j.At(p);
    forall p: nat | p != id
      ensures Held(w, f') !! Held(w, j.At(p))
    {
      assert Held(w, j.At(id)) !! Held(w, j.At(p));
    }
    forall i: nat
      ensures Held(w, f') !! j.base.At(i).tx.locks
    {
      assert Held(w, j.At(id)) !! j.base.At(i).tx.locks;
    }
  }

  lemma OpeningIsOk(w: World, j: Joint, id: nat, reference: string, vpa: Vpa, amount: int)
    requires JointOk(w, j) && JointEnabled(w, j, Open(id, reference, vpa, amount))
    ensures JointOk(w, JointNext(w, j, Open(id, reference, vpa, amount)))
  {
    hide Safe, Next, Enabled, DoAdvance, Checks, KeyTaken, Found;
    var f := JointNext(w, j, Open(id, reference, vpa, amount)).At(id);
    FoundAscends(Ledger.LockOrder(Ledger.FundMovements(vpa, amount)), j.base.db.accounts.Keys);
    assert Held(w, f) == {};
    hide Held, Text.Ascending;
    assert forall p: nat ::
        JointNext(w, j, Open(id, reference, vpa, amount)).At(p) == if p == id then f else j.At(p);
  }

  /** A fund about to commit has locked both its accounts and its key. */
  lemma FundRowsAreHeld(w: World, db: Database, f: OpenFund)
    requires FundOk(w, db, f) && f.stage == Written
    ensures AccountRow(HOUSE_VPA) in Held(w, f) && AccountRow(f.vpa) in Held(w, f)
    ensures w.unique ==> JournalRow(JournalKey(f)) in Held(w, f)
  {
    hide Text.Ascending, KeyTaken, Ledger.NetChange;
    var names := Ledger.Names(MovementsFor(f));
    assert names[0] == HOUSE_VPA && names[1] == f.vpa;
    assert HOUSE_VPA in f.rows && f.vpa in f.rows;
    var i: nat :| i < |f.rows| && f.rows[i] == HOUSE_VPA;
    var k: nat :| k < |f.rows| && f.rows[k] == f.vpa;
    assert AccountRow(f.rows[i]) in Held(w, f) && AccountRow(f.rows[k]) in Held(w, f);
  }

  /** Whatever keeps clear of its locks keeps clear of the rows that the operator's act locks. */
  lemma ApartFromWritten(w: World, db: Database, f: OpenFund, locks: set<Lock>)
    requires FundOk(w, db, f) && f.stage == Written && Held(w, f) !! locks
    requires w.unique || forall k :: JournalRow(k) !in locks
    ensures locks !! OperatorLocks(ActOf(f))
  {
    hide FundOk, Held;
    FundRowsAreHeld(w, db, f);
  }

  /** A fund about to commit holds every row that the operator's act locks, so the act can run. */
  lemma WrittenFundCanCommit(w: World, j: Joint, id: nat)
    requires JointOk(w, j) && j.At(id).stage == Written
    ensures JointEnabled(w, Close(j, id), Base(Operate(ActOf(j.At(id)))))
  {
    hide Isolated, TablesGood, WellHeld, Faithful, RepliesTrue, History.HistoryTrue, FundOk, Held, ActOf, Next,
      OperatorLocks, Wants;
    var f := j.At(id);
    forall i: nat
      ensures j.base.At(i).tx.locks !! OperatorLocks(ActOf(f))
    {
      TxIsOk(w, j.base, i);
      ApartFromWritten(w, j.base.db, f, j.base.At(i).tx.locks);
    }
    forall p: nat
      ensures Held(w, Close(j, id).At(p)) !! OperatorLocks(ActOf(f))
    {
      NoFundIsOk(w, j.base.db);
      HeldKinds(w, j.At(p));
      if p != id {
        ApartFromWritten(w, j.base.db, f, Held(w, j.At(p)));
      }
    }
  }

  /** A statement that is not the commit closes the fund or lets it go on. */
  lemma FundStatement(w: World, db: Database, f: OpenFund)
    requires FundOk(w, db, f)
    ensures f.stage == TakingRows && f.taken < |f.rows| ==> GoesOnAs(w, db, f, f.(taken := f.taken + 1))
    ensures f.stage == TakingRows && f.taken == |f.rows| && Checks(db, f) ==>
              GoesOnAs(w, db, f, f.(stage := EnteringJournal))
    ensures f.stage == EnteringJournal && !(w.unique && KeyTaken(db.entries, JournalKey(f))) ==>
              GoesOnAs(w, db, f, f.(stage := Written))
  {
    hide KeyTaken, Ledger.LockOrder, Ledger.NetChange, Text.Ascending;
  }

  lemma AdvancingIsOk(w: World, j: Joint, id: nat)
    requires Sound(w) && JointOk(w, j) && JointEnabled(w, j, Advance(id))
    ensures JointOk(w, DoAdvance(w, j, id))
  {
    hide Safe, Enabled, Held, Checks, KeyTaken, WantedByFund, Sound, FundsOk, GoesOnAs, Execute, Operated;
    var f, db := j.At(id), j.base.db;
    AtIsOk(w, j, id);
    FundStatement(w, db, f);
    ClosingIsOk(w, j, id);
    if f.stage == Written {
      WrittenFundCanCommit(w, j, id);
      hide JointEnabled;
      BaseStepIsOk(w, Close(j, id), Operate(ActOf(f)));
      assert JointNext(w, Close(j, id), Base(Operate(ActOf(f)))) == DoAdvance(w, j, id);
    } else if DoAdvance(w, j, id) != Close(j, id) {
      hide FundOk, NoneLocked, FreeOfFunds, JointOk;
      MovingOnIsOk(w, j, id, DoAdvance(w, j, id).At(id));
    }
  }

  lemma AtIsOk(w: World, j: Joint, id: nat)
    requires FundsOk(w, j)
    ensures FundOk(w, j.base.db, j.At(id))
  {
    hide FundOk, Held;
  }

  lemma JointStepIsOk(w: World, j: Joint, step: JointStep)
    requires Sound(w) && JointOk(w, j) && JointEnabled(w, j, step)
    ensures JointOk(w, JointNext(w, j, step))
  {
    hide JointOk, JointEnabled, Sound, DoAdvance, Next;
    match step
    case Base(s) => BaseStepIsOk(w, j, s);
    case Open(id, reference, vpa, amount) => OpeningIsOk(w, j, id, reference, vpa, amount);
    case Advance(id) => AdvancingIsOk(w, j, id);
    case Abort(id) => ClosingIsOk(w, j, id);
  }

  lemma {:induction false} JointReachableIsOk(w: World, r: JointRun, n: nat)
    requires Sound(w) && IsJointRun(w, r)
    ensures JointOk(w, r.state(n))
  {
    hide JointEnabled, Sound, JointNext, Safe, Initial;
    if n == 0 {
      InitialIsSafe(w, r.state(0).base);
      NothingOpen(w, r.state(0));
    } else {
      hide JointOk;
      JointReachableIsOk(w, r, n - 1);
      assert JointFollows(w, r, n - 1);
      JointStepIsOk(w, r.state(n - 1), r.step(n - 1));
    }
  }

  lemma NothingOpen(w: World, j: Joint)
    requires j.funds == map[]
    ensures FundsOk(w, j)
  {
    hide FundOk, Held;
    NoFundIsOk(w, j.base.db);
  }

  // ---------------------------------------------------------------------------------------------
  // Taking the locks one at a time adds no behaviour
  // ---------------------------------------------------------------------------------------------

  /** The step of the service behind a joint step, if any: a fund acts when it commits. */
  function BaseStepOf(j: Joint, step: JointStep): Option<Step> {
    match step
    case Base(s) => Some(s)
    case Advance(id) => if j.At(id).stage == Written then Some(Operate(ActOf(j.At(id)))) else None
    case _ => None
  }

  /** The service moves by its own step, or not at all. */
  lemma JointStepIsBaseStep(w: World, j: Joint, step: JointStep)
    requires JointOk(w, j) && JointEnabled(w, j, step)
    ensures match BaseStepOf(j, step)
            case Some(s) => Enabled(w, j.base, s) && JointNext(w, j, step).base == Next(w, j.base, s)
            case None => JointNext(w, j, step).base == j.base
  {
    hide Safe, Held, FundsOk, Checks, KeyTaken, WantedByFund, NoneLocked, FreeOfFunds, Execute, Operated, Wants, Free,
      AfterAcquire, LookedUp, Unsealed, Protocol.Found, AfterCommit, Noted;
    if step.Advance? && j.At(step.id).stage == Written {
      WrittenFundCanCommit(w, j, step.id);
    }
  }

  /** Whatever the service reaches with funds that lock row by row, it reaches with funds in one step. */
  lemma {:induction false} JointRunsAreRuns(w: World, r: JointRun, n: nat) returns (base: Run, m: nat)
    requires Sound(w) && IsJointRun(w, r)
    ensures IsRun(w, base) && base.state(m) == r.state(n).base
  {
    hide JointEnabled, JointNext, JointOk, Sound, Enabled, Next, IsRun, Initial;
    if n == 0 {
      base, m := Progress.Resting(r.state(0).base), 0;
      Progress.RestingIsARun(w, r.state(0).base);
    } else {
      var before, k := JointRunsAreRuns(w, r, n - 1);
      JointReachableIsOk(w, r, n - 1);
      assert JointFollows(w, r, n - 1);
      JointStepIsBaseStep(w, r.state(n - 1), r.step(n - 1));
      match BaseStepOf(r.state(n - 1), r.step(n - 1)) {
        case Some(s) =>
          base := Progress.TakeStep(w, before, k, s);
          m := k + 1;
          assert base.After(k) == base.state(m);
        case None =>
          base, m := before, k;
      }
    }
  }

  /** What a fund checked under its locks still holds when it commits: the credit is made, exactly as asked. */
  lemma CheckedFundSucceeds(w: World, j: Joint, id: nat) returns (db': Database)
    requires JointOk(w, j) && j.At(id).stage == Written && j.At(id).vpa != HOUSE_VPA
    ensures var f := j.At(id);
            && Spec.Operate(j.base.db, w.unique, ActOf(f), j.base.nextEntry) == Some(db')
            && db'.accounts == Ledger.Paid(j.base.db.accounts, HOUSE_VPA, f.vpa, f.amount)
  {
    hide Isolated, WellHeld, Faithful, RepliesTrue, History.HistoryTrue, Held, Text.Ascending, Spec.Operate,
      Consistency.Consistent, KeyTaken, Ledger.Paid, Ledger.NetChange, Instruction.TopUpKey;
    var f, db := j.At(id), j.base.db;
    AtIsOk(w, j, id);
    var names := Ledger.Names(MovementsFor(f));
    assert names[0] == HOUSE_VPA && names[1] == f.vpa;
    assert HOUSE_VPA in f.rows && f.vpa in f.rows;
    assert MovementsFor(f) == Ledger.TransferMovements(HOUSE_VPA, f.vpa, f.amount);
    Ledger.SumsOfTransfer(HOUSE_VPA, f.vpa, f.amount);
    NobodyIsOverdrawn(db);
    assert !Ledger.Overdrawn(Ledger.RowOf(db.accounts, f.vpa), 0);
    db' := Consistency.FundSucceeds(db, w.unique, f.reference, f.vpa, f.amount, j.base.nextEntry);
  }

  // ---------------------------------------------------------------------------------------------
  // Deliveries lock upwards
  // ---------------------------------------------------------------------------------------------

  /** The highest rank a transaction can have locked before its next statement. */
  function Ceiling(pc: Pc): nat {
    match pc
    case Selecting => 1
    case LockingFirst => 1
    case LockingSecond => 3
    case Journaling => 3
    case Debiting => 4
    case Crediting => 4
    case Consuming => 4
    case Receipting => 5
    case Marking => 6
    case Committing => 7
    case _ => 0
  }

  ghost predicate LocksInOrder(w: World, d: InFlight) {
    forall l :: l in d.tx.locks ==>
      && Rank(l) <= Ceiling(d.pc)
      && (d.pc == LockingSecond && l.AccountRow? ==> l.vpa == First(ReqOf(w, d)))
  }

  lemma StatementKeepsOrder(w: World, db: Database, next: nat, d: InFlight)
    requires InTx(d.pc) && d.pc != Committing && LocksInOrder(w, d)
    ensures LocksInOrder(w, Execute(w, db, next, d))
  {
    hide AuthorizeRequest, FreshnessProblem, Registry.LimitProblem, KeyTaken, Ledger.Move, Registry.Consume, MovedRow,
      Claims.HeldBy, Claims.DecidedRow, First, Second, Ledger.Overdrawn, RevokedRow, Registry.SpentRow, KeyOf,
      Receipts.ReceiptFor;
  }

  lemma StepKeepsOrder(w: World, s: State, step: Step)
    requires Safe(w, s) && Enabled(w, s, step) && forall i: nat :: LocksInOrder(w, s.At(i))
    ensures forall i: nat :: LocksInOrder(w, Next(w, s, step).At(i))
  {
    hide Isolated, TablesGood, WellHeld, Faithful, RepliesTrue, History.HistoryTrue, Next, Execute, LocksInOrder,
      Moved, Wants, Free, NoneLocked;
    StepMoves(w, s, step);
    forall i: nat
      ensures LocksInOrder(w, Next(w, s, step).At(i))
    {
      if step == Run(i) {
        Progress.RunUnfolds(w, s, i);
        StatementKeepsOrder(w, s.db, s.nextEntry, s.At(i));
      } else if MoverOf(step) == Some(i) {
        NothingLockedAfter(w, s, step, i, s.At(i), Next(w, s, step).At(i));
      }
    }
  }

  lemma NothingLockedAfter(w: World, s: State, step: Step, i: nat, d: InFlight, d': InFlight)
    requires Isolated(w, s) && d == s.At(i) && Moved(w, s, step, d, d') && MoverOf(step) == Some(i) && step != Run(i)
    ensures LocksInOrder(w, d')
  {
    hide Isolated, ReqOf;
    TxIsOk(w, s, i);
  }

  lemma {:induction false} ReachableIsInOrder(w: World, r: Run, n: nat)
    requires Sound(w) && IsRun(w, r)
    ensures forall i: nat :: LocksInOrder(w, r.state(n).At(i))
  {
    hide Safe, Enabled, Next, Sound, Follows, LocksInOrder;
    if n == 0 {
      NothingHere(w);
    } else {
      ReachableIsInOrder(w, r, n - 1);
      StepOfRun(w, r, n - 1);
      StepKeepsOrder(w, r.state(n - 1), r.step(n - 1));
    }
  }

  lemma NothingHere(w: World)
    ensures LocksInOrder(w, NOT_HERE)
  {}

  // ---------------------------------------------------------------------------------------------
  // Who waits for whom
  // ---------------------------------------------------------------------------------------------

  datatype Who = ADelivery(i: nat) | AFund(p: nat)

  function RunningIn(j: Joint): set<Who> {
    (set i | i in j.base.deliveries && InTx(j.base.At(i).pc) :: ADelivery(i)) + (set p | p in j.funds :: AFund(p))
  }

  /** The row that this transaction's next statement must lock. */
  function WantedBy(w: World, j: Joint, who: Who): Option<Lock> {
    match who
    case ADelivery(i) => Wants(w, j.base.db, j.base.At(i))
    case AFund(p) => WantedByFund(w, j.At(p))
  }

  function LockedBy(w: World, j: Joint, who: Who): set<Lock> {
    match who
    case ADelivery(i) => j.base.At(i).tx.locks
    case AFund(p) => Held(w, j.At(p))
  }

  /** Every open transaction of deliveries and funds, and every row and key lock among them. */
  function GraphOf(w: World, j: Joint): Graph<Who> {
    Graph(RunningIn(j), (who: Who) => WantedBy(w, j, who), (who: Who) => LockedBy(w, j, who))
  }

  lemma WantIsAboveCeiling(w: World, db: Database, d: InFlight, l: Lock, want: Lock)
    requires InTx(d.pc) && LocksInOrder(w, d) && l in d.tx.locks && Wants(w, db, d) == Some(want)
    requires Instruction.WellFormed(d.intent.instruction)
    ensures Below(l, want)
  {
    assert d.intent.instruction.senderVpa != d.intent.instruction.receiverVpa;
    hide Instruction.WellFormed, KeyOf;
    Text.LessTotal(d.intent.instruction.senderVpa, d.intent.instruction.receiverVpa);
    assert d.pc != LockingSecond ==> Rank(want) > Ceiling(d.pc);
  }

  lemma DeliveryIsOrdered(w: World, s: State, i: nat)
    requires Isolated(w, s) && LocksInOrder(w, s.At(i))
    ensures forall l, want :: l in s.At(i).tx.locks && Wants(w, s.db, s.At(i)) == Some(want) ==> Below(l, want)
    ensures s.At(i).tx.locks != {} ==> i in s.deliveries && InTx(s.At(i).pc)
  {
    hide Isolated, Facts, LocksInRange, LocksInOrder, Wants, Below, Instruction.WellFormed;
    TxIsOk(w, s, i);
    forall l, want | l in s.At(i).tx.locks && Wants(w, s.db, s.At(i)) == Some(want)
      ensures Below(l, want)
    {
      WantIsAboveCeiling(w, s.db, s.At(i), l, want);
    }
  }

  lemma FundIsOrdered(w: World, db: Database, f: OpenFund)
    requires FundOk(w, db, f)
    ensures forall l, want :: l in Held(w, f) && WantedByFund(w, f) == Some(want) ==> Below(l, want)
  {
    hide KeyTaken, Checks;
  }

  /** Whatever a transaction wants is above everything it has locked. */
  lemma GraphIsOrdered(w: World, j: Joint)
    requires JointOk(w, j) && forall i: nat :: LocksInOrder(w, j.base.At(i))
    ensures Ordered(GraphOf(w, j))
  {
    hide Isolated, TablesGood, WellHeld, Faithful, RepliesTrue, History.HistoryTrue, Wants, WantedByFund, Held, Below,
      LocksInOrder, FundOk;
    var g := GraphOf(w, j);
    forall who, l | l in g.held(who)
      ensures who in g.running
      ensures g.wanted(who).Some? ==> Below(l, g.wanted(who).value)
    {
      match who
      case ADelivery(i) => DeliveryIsOrdered(w, j.base, i);
      case AFund(p) =>
        NoFundIsOk(w, j.base.db);
        FundIsOrdered(w, j.base.db, j.At(p));
    }
  }

  lemma ReachableGraphIsOrdered(w: World, r: JointRun, n: nat)
    requires Sound(w) && IsJointRun(w, r)
    ensures Ordered(GraphOf(w, r.state(n)))
  {
    hide Sound, IsJointRun, IsRun, JointOk, LocksInOrder, Ordered;
    JointReachableIsOk(w, r, n);
    var base, m := JointRunsAreRuns(w, r, n);
    ReachableIsInOrder(w, base, m);
    GraphIsOrdered(w, r.state(n));
  }

  /** In every reachable state the waits-for graph is acyclic. */
  lemma NoWaitingCycle(w: World, r: JointRun, n: nat, path: seq<Who>)
    requires Sound(w) && IsJointRun(w, r) && IsWaitingPath(GraphOf(w, r.state(n)), path)
    ensures path[0] != path[|path| - 1]
  {
    hide Sound, IsJointRun, Ordered, GraphOf;
    ReachableGraphIsOrdered(w, r, n);
    NoCycle(GraphOf(w, r.state(n)), path);
  }

  /** This transaction's next statement, or its commit, can run now. */
  ghost predicate CanMove(w: World, j: Joint, who: Who) {
    match who
    case ADelivery(i) => JointEnabled(w, j, Base(Run(i))) || JointEnabled(w, j, Base(Commit(i, true)))
    case AFund(p) => JointEnabled(w, j, Advance(p))
  }

  /** Nobody else has locked what a free transaction wants. */
  lemma FreeMeans(w: World, j: Joint, who: Who)
    requires IsFree(GraphOf(w, j), who)
    ensures who in RunningIn(j)
    ensures forall i: nat :: who != ADelivery(i) ==> AsSet(WantedBy(w, j, who)) !! j.base.At(i).tx.locks
    ensures forall p: nat :: who != AFund(p) ==> AsSet(WantedBy(w, j, who)) !! Held(w, j.At(p))
  {
    hide Held, WantedBy;
    var g := GraphOf(w, j);
    forall other | other != who && WantedBy(w, j, who).Some?
      ensures WantedBy(w, j, who).value !in LockedBy(w, j, other)
    {
      assert g.wanted(who).value !in g.held(other);
    }
    assert forall i: nat :: LockedBy(w, j, ADelivery(i)) == j.base.At(i).tx.locks;
    assert forall p: nat :: LockedBy(w, j, AFund(p)) == Held(w, j.At(p));
  }

  lemma FreeCanMove(w: World, j: Joint, who: Who)
    requires IsFree(GraphOf(w, j), who)
    ensures CanMove(w, j, who)
  {
    hide Held, Wants, WantedByFund, OperatorLocks, IsFree, GraphOf;
    FreeMeans(w, j, who);
  }

  /** While any transaction is open, some open transaction can go on. */
  lemma SomeTransactionCanMove(w: World, r: JointRun, n: nat, who: Who)
    requires Sound(w) && IsJointRun(w, r) && who in RunningIn(r.state(n))
    ensures exists top :: top in RunningIn(r.state(n)) && CanMove(w, r.state(n), top)
  {
    hide Sound, IsJointRun, Ordered, RunningIn, CanMove;
    ReachableGraphIsOrdered(w, r, n);
    SomeoneIsFree(GraphOf(w, r.state(n)), who);
    var top :| IsFree(GraphOf(w, r.state(n)), top);
    FreeCanMove(w, r.state(n), top);
  }
}
