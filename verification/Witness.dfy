/** Runs that exist: what the theorems about runs allow does happen. */
module Witness {
  import opened Bytes
  import opened Wrappers
  import opened Tables
  import opened Claims
  import opened Ingest
  import opened Protocol
  import opened Isolation
  import opened Safety
  import opened Runs
  import opened Verdicts
  import opened Progress
  import Consistency
  import History
  import Instruction
  import KeyRing
  import Ledger
  import Registry
  import Spec

  // ---------------------------------------------------------------------------------------------
  // A service with one funded payer
  // ---------------------------------------------------------------------------------------------

  /** A payment that this world's service can open. */
  ghost predicate IsSample(w: World, ring: KeyRing.Ring, wire: bytes, intent: Intent) {
    Sound(w) && w.open(wire, ring) == Opened(intent)
  }

  lemma SampleIsWellFormed(w: World, ring: KeyRing.Ring, wire: bytes, intent: Intent)
    requires IsSample(w, ring, wire, intent)
    ensures Instruction.WellFormed(intent.instruction)
  {
    assert Instruction.WellFormed(w.open(wire, ring).intent.instruction);
  }

  /** Nothing has been delivered, claimed or decided. */
  ghost predicate IsQuiet(s: State, ring: KeyRing.Ring) {
    && s.deliveries == map[] && s.holders == {} && s.ring == ring
    && s.db.claims == map[] && s.db.sequences == map[] && s.db.fingerprints == map[]
  }

  /** The payer has enough, and a phone that may spend it. */
  ghost predicate IsReady(w: World, s: State, ring: KeyRing.Ring, intent: Intent, payeeKnown: bool) {
    var p, device := intent.instruction, w.deviceIdOf(intent.publicKey);
    && IsQuiet(s, ring)
    && p.senderVpa in s.db.accounts && !Ledger.Overdrawn(s.db.accounts[p.senderVpa], -p.amountPaise)
    && (p.receiverVpa in s.db.accounts <==> payeeKnown)
    && Lookup(s.db.devices, device) == Some(Device(p.senderVpa, intent.publicKey, Active, None))
    && Lookup(s.db.envelopes, device) == Some(OfflineEnvelope(p.amountPaise, p.amountPaise))
  }

  /** An operator's act, with no transaction open, is a step. */
  lemma Acts(w: World, r: Run, n: nat, ring: KeyRing.Ring, act: Spec.OperatorAct, db': Database)
      returns (r': Run, m: nat)
    requires IsRun(w, r) && IsQuiet(r.state(n), ring)
    requires Spec.Operate(r.state(n).db, w.unique, act, r.state(n).nextEntry) == Some(db')
    ensures IsRun(w, r') && IsQuiet(r'.state(m), ring) && r'.state(m).db == db'
  {
    var s := r.state(n);
    EffectOfOperating(s.db, w.unique, act, s.nextEntry, db');
    hide IsRun, Spec.Operate, OperatorLocks, Execute, AfterAcquire, LookedUp, Unsealed, Found, AfterCommit, Noted,
      Wants, Free;
    r' := TakeStep(w, r, n, Operate(act));
    m := n + 1;
    assert r'.After(n) == r'.state(m);
  }

  lemma OpensIfNew(w: World, r: Run, n: nat, ring: KeyRing.Ring, v: Vpa) returns (r': Run, m: nat)
    requires IsRun(w, r) && IsQuiet(r.state(n), ring)
    ensures IsRun(w, r') && IsQuiet(r'.state(m), ring)
    ensures var db := r.state(n).db;
            r'.state(m).db == db.(accounts := if v in db.accounts then db.accounts
                                              else db.accounts[v := Account(Customer, 0)])
  {
    hide IsRun, IsQuiet, Ledger.Post;
    var db := r.state(n).db;
    if v in db.accounts {
      r', m := r, n;
    } else {
      r', m := Acts(w, r, n, ring, Spec.OpenAccount(v), db.(accounts := db.accounts[v := Account(Customer, 0)]));
    }
  }

  /** The house need not be funded; anyone else is. */
  lemma FundsACustomer(w: World, r: Run, n: nat, ring: KeyRing.Ring, v: Vpa, amount: int) returns (r': Run, m: nat)
    requires IsRun(w, r) && IsQuiet(r.state(n), ring) && amount > 0
    requires var db := r.state(n).db;
             && Lookup(db.accounts, HOUSE_VPA) == Some(Account(House, 0)) && db.entries == map[]
             && (v != HOUSE_VPA ==> Lookup(db.accounts, v) == Some(Account(Customer, 0)))
    ensures IsRun(w, r') && IsQuiet(r'.state(m), ring)
    ensures var db, db' := r.state(n).db, r'.state(m).db;
            && db'.accounts.Keys == db.accounts.Keys && v in db'.accounts
            && !Ledger.Overdrawn(Ledger.RowOf(db'.accounts, v), -amount)
            && db'.devices == db.devices && db'.envelopes == db.envelopes
  {
    hide IsRun, IsQuiet, Spec.Operate, Instruction.TopUpKey;
    if v == HOUSE_VPA {
      r', m := r, n;
    } else {
      var db' := Consistency.FundSucceeds(r.state(n).db, w.unique, "first", v, amount, r.state(n).nextEntry);
      r', m := Acts(w, r, n, ring, Spec.Fund("first", v, amount), db');
    }
  }

  /** Accounts opened, the payer funded, the phone registered. */
  lemma GetsReady(w: World, ring: KeyRing.Ring, intent: Intent, payeeKnown: bool) returns (r: Run, n: nat)
    requires Instruction.WellFormed(intent.instruction) && (payeeKnown || intent.instruction.receiverVpa != HOUSE_VPA)
    ensures IsRun(w, r) && IsReady(w, r.state(n), ring, intent, payeeKnown)
  {
    var p, device := intent.instruction, w.deviceIdOf(intent.publicKey);
    assert p.senderVpa != p.receiverVpa && p.amountPaise > 0;
    hide IsRun, Instruction.WellFormed, Ledger.Post;
    r, n := Resting(FirstState(ring)), 0;
    RestingIsARun(w, FirstState(ring));
    r, n := OpensIfNew(w, r, n, ring, p.senderVpa);
    if payeeKnown {
      r, n := OpensIfNew(w, r, n, ring, p.receiverVpa);
    }
    r, n := FundsACustomer(w, r, n, ring, p.senderVpa, p.amountPaise);
    hide IsQuiet;
    var db := r.state(n).db;
    var act := Spec.RegisterDevice(device, p.senderVpa, intent.publicKey, p.amountPaise, p.amountPaise);
    r, n := Acts(w, r, n, ring, act, db.(
      devices := Registry.RegisteredDevice(db.devices, device, p.senderVpa, intent.publicKey),
      envelopes := db.envelopes[device := OfflineEnvelope(p.amountPaise, p.amountPaise)]));
  }

  // ---------------------------------------------------------------------------------------------
  // Its payment under way
  // ---------------------------------------------------------------------------------------------

  /** The number of the one delivery. */
  const FIRST: nat := 0

  function SampleLimits(w: World, intent: Intent): Registry.Limits {
    Registry.Limits(w.deviceIdOf(intent.publicKey), intent.instruction.amountPaise, intent.instruction.amountPaise)
  }

  /** The one delivery, in its transaction, in tables that are otherwise as they were. */
  ghost predicate UnderWay(w: World, ready: Database, s: State, intent: Intent) {
    && Alone(w, s, FIRST) && s.deliveries.Keys == {FIRST} && s.At(FIRST).intent == intent
    && s.At(FIRST).now == intent.instruction.signedAt
    && s.db == ready.(fingerprints := s.db.fingerprints, claims := s.db.claims)
  }

  lemma StartsTransaction(w: World, r: Run, n: nat, ring: KeyRing.Ring, wire: bytes, intent: Intent, payeeKnown: bool)
      returns (r': Run, m: nat)
    requires IsSample(w, ring, wire, intent) && IsRun(w, r) && IsReady(w, r.state(n), ring, intent, payeeKnown)
    ensures IsRun(w, r') && UnderWay(w, r.state(n).db, r'.state(m), intent)
    ensures r'.state(m).At(FIRST).pc == Authorizing && r'.state(m).At(FIRST).tx == NO_TX
  {
    var s, now := r.state(n), intent.instruction.signedAt;
    hide IsRun, Sound, Isolated, TablesGood, WellHeld, Faithful, RepliesTrue, History.HistoryTrue, Alone, Enabled,
      Next, KeyOf, Continues, StandsAt, IsReady, Idle, Takeable, KnownDecision, UnderWay;
    ReachableIsSafe(w, r, n);
    ReadyToStart(w, s, ring, intent, payeeKnown, wire);
    var a, k := ComesToClaim(w, r, n, FIRST, wire, ring, now, intent);
    TakesTheClaim(w, s, a.state(k), FIRST, Claiming(wire, ring, now, intent), "first");
    ContinuesIsRun(w, r, n, a, k, FIRST);
    r' := TakeStep(w, a, k, TryAcquire(FIRST, "first", a.state(k).clock));
    m := k + 1;
    assert r'.After(k) == r'.state(m);
    StartedUnderWay(w, s, a.state(k), r'.state(m), Claiming(wire, ring, now, intent));
  }

  lemma ReadyToStart(w: World, s: State, ring: KeyRing.Ring, intent: Intent, payeeKnown: bool, wire: bytes)
    requires IsReady(w, s, ring, intent, payeeKnown)
    ensures s.deliveries == map[] && "first" !in s.holders && Idle(s) && KeyRing.Extends(s.ring, ring)
    ensures KnownDecision(s.db, w.fingerprint(wire)).None? && Takeable(s.db.claims, KeyOf(intent), s.clock)
  {
    hide KeyOf;
  }

  lemma StartedUnderWay(w: World, ready: State, s: State, s': State, d: InFlight)
    requires StandsAt(ready, s, FIRST, d) && ready.deliveries == map[] && Alone(w, s', FIRST)
    requires d.now == d.intent.instruction.signedAt && s'.At(FIRST) == Beginning(d, "first")
    requires s' == s.(db := s.db.(claims := s'.db.claims), holders := s'.holders,
               deliveries := s.deliveries[FIRST := Beginning(d, "first")])
    ensures UnderWay(w, ready.db, s', d.intent)
  {
    hide Alone;
  }

  /** One statement of the one delivery. */
  lemma RunsOnce(w: World, r: Run, n: nat, ready: Database, intent: Intent) returns (r': Run)
    requires Sound(w) && IsRun(w, r) && UnderWay(w, ready, r.state(n), intent) && r.state(n).At(FIRST).pc != Committing
    ensures IsRun(w, r') && Agree(r, r', n) && r'.step(n) == Run(FIRST)
    ensures UnderWay(w, ready, r'.After(n), intent) && Advanced(w, r.state(n), r'.After(n), FIRST)
    ensures r'.After(n).At(FIRST) == Execute(w, r.state(n).db, r.state(n).nextEntry, r.state(n).At(FIRST))
  {
    hide IsRun, Sound, Safe, Alone, Enabled, Next, Execute, HasRead, PastSelecting;
    ReachableIsSafe(w, r, n);
    RunAlone(w, r.state(n), FIRST);
    r' := TakeStep(w, r, n, Run(FIRST));
  }

  /** authorize reads the registered phone and allows the payment. */
  lemma Authorizes(w: World, s: State, ready: State, ring: KeyRing.Ring, intent: Intent, payeeKnown: bool, next: nat)
    requires IsReady(w, ready, ring, intent, payeeKnown) && UnderWay(w, ready.db, s, intent)
    requires s.At(FIRST).pc == Authorizing && s.At(FIRST).tx == NO_TX && Instruction.WellFormed(intent.instruction)
    ensures AuthorizeRequest(s.db, ReqOf(w, s.At(FIRST))) == Registry.Allowed(SampleLimits(w, intent))
    ensures var d' := Execute(w, s.db, next, s.At(FIRST));
            && d'.pc == Sequencing && d'.tx == NO_TX.(auth := Registry.Allowed(SampleLimits(w, intent)))
  {
    FreshNow(intent.instruction);
    hide Alone, KeyOf, Instruction.WellFormed, Pay, Record, AfterSequence, FreshnessProblem;
  }

  lemma FreshNow(p: Instruction.PaymentInstruction)
    requires Instruction.WellFormed(p)
    ensures FreshnessProblem(p, p.signedAt) == None && p.amountPaise > 0 && p.senderVpa != p.receiverVpa
  {}

  /** An operator acts while the delivery is between two statements. */
  lemma ActsMeanwhile(w: World, r: Run, n: nat, act: Spec.OperatorAct, db': Database) returns (r': Run)
    requires IsRun(w, r) && NoneLocked(r.state(n), OperatorLocks(act))
    requires Spec.Operate(r.state(n).db, w.unique, act, r.state(n).nextEntry) == Some(db')
    ensures IsRun(w, r') && Agree(r, r', n) && r'.step(n) == Operate(act)
    ensures r'.After(n).db == db' && r'.After(n).deliveries == r.state(n).deliveries
  {
    hide IsRun, Spec.Operate, OperatorLocks, Execute, AfterAcquire, LookedUp, Unsealed, Found, AfterCommit, Noted,
      Wants, Free, NoneLocked;
    r' := TakeStep(w, r, n, Operate(act));
  }

  /** The sample's delivery, authorized at step m. */
  lemma GetsAuthorized(w: World, ring: KeyRing.Ring, wire: bytes, intent: Intent, payeeKnown: bool)
      returns (r: Run, m: nat, ready: State)
    requires IsSample(w, ring, wire, intent) && (payeeKnown || intent.instruction.receiverVpa != HOUSE_VPA)
    ensures IsRun(w, r) && r.step(m) == Run(FIRST) && r.state(m).At(FIRST).pc == Authorizing
    ensures IsReady(w, ready, ring, intent, payeeKnown) && Instruction.WellFormed(intent.instruction)
    ensures UnderWay(w, ready.db, r.After(m), intent) && OnlyMoved(r.state(m), r.After(m), FIRST)
    ensures AuthorizeRequest(r.state(m).db, ReqOf(w, r.state(m).At(FIRST))) == Registry.Allowed(SampleLimits(w, intent))
    ensures r.After(m).At(FIRST).pc == Sequencing
            && r.After(m).At(FIRST).tx == NO_TX.(auth := Registry.Allowed(SampleLimits(w, intent)))
  {
    hide IsRun, Sound, Alone, Execute, Instruction.WellFormed, PastSelecting, AuthorizeRequest, ReqOf, IsReady, HasRead,
      UnderWay, OnlyMoved;
    SampleIsWellFormed(w, ring, wire, intent);
    var a, i := GetsReady(w, ring, intent, payeeKnown);
    ready := a.state(i);
    a, m := StartsTransaction(w, a, i, ring, wire, intent, payeeKnown);
    Authorizes(w, a.state(m), ready, ring, intent, payeeKnown, a.state(m).nextEntry);
    r := RunsOnce(w, a, m, ready.db, intent);
  }

  /** What the commit of the sample decides, by what its SELECT saw. */
  lemma SampleVerdict(w: World, db: Database, req: Request, tx: Tx)
    requires Reasons(w, db, req, tx) && tx.auth == Registry.Allowed(SampleLimits(w, req.intent))
    requires Instruction.WellFormed(PaymentOf(req)) && req.now == PaymentOf(req).signedAt
    requires SequenceOf(req) !in db.sequences
    ensures tx.path.ViaMissing? || tx.path.ViaShort? || tx.path.ViaPaid?
    ensures PaymentOf(req).senderVpa in tx.visible && PaymentOf(req).receiverVpa !in tx.visible ==>
              tx.verdict == Refuse(UnknownAccount, NoSuchAccount(PaymentOf(req).receiverVpa))
    ensures PaymentOf(req).senderVpa in tx.visible && PaymentOf(req).receiverVpa in tx.visible && !IsShort(db, req) ==>
              tx.verdict.Settle?
  {
    FreshNow(PaymentOf(req));
    hide FreshnessProblem, OwnsSequence, LockedParties, HasEntry, BothRows, RevokedRow, Registry.SpentRow,
      Instruction.WellFormed;
  }

  /** From a state of its transaction to its commit: what was read stays read, and decides. */
  lemma ComesToCommit(w: World, r: Run, n: nat, intent: Intent) returns (r': Run, m: nat)
    requires Sound(w) && IsRun(w, r) && Alone(w, r.state(n), FIRST)
    requires r.state(n).At(FIRST).intent == intent && r.state(n).At(FIRST).now == intent.instruction.signedAt
    requires HasRead(r.state(n).At(FIRST)) && r.state(n).At(FIRST).tx.auth == Registry.Allowed(SampleLimits(w, intent))
    requires SequenceOf(ReqOf(w, r.state(n).At(FIRST))) !in r.state(n).db.sequences
    ensures IsRun(w, r') && Agree(r, r', n) && n <= m && r'.step(m) == Commit(FIRST, true)
    ensures Advanced(w, r.state(n), r'.state(m), FIRST) && r'.state(m).At(FIRST).pc == Committing
    ensures PastSelecting(r'.state(m).At(FIRST))
    ensures Instruction.WellFormed(intent.instruction)
    ensures Reasons(w, r'.state(m).db, ReqOf(w, r'.state(m).At(FIRST)), r'.state(m).At(FIRST).tx)
  {
    hide IsRun, Sound, Isolated, TablesGood, WellHeld, Faithful, RepliesTrue, History.HistoryTrue, Alone, Enabled,
      Next, ReqOf, Reasons, PastSelecting, HasRead;
    var a, k := RunsToCommit(w, r, n, FIRST);
    ReachableIsSafe(w, a, k);
    var s := a.state(k);
    CommitterHasReasons(w, s, FIRST);
    CommittingSample(w, r.state(n), s, intent);
    CanCommit(w, s);
    r' := TakeStep(w, a, k, Commit(FIRST, true));
    m := k;
  }

  lemma CanCommit(w: World, s: State)
    requires s.At(FIRST).pc == Committing
    ensures Enabled(w, s, Commit(FIRST, true))
  {
    hide Wants, Free, NoneLocked;
  }

  lemma CommittingSample(w: World, before: State, s: State, intent: Intent)
    requires Isolated(w, s) && s.At(FIRST).pc == Committing && Advanced(w, before, s, FIRST)
    requires before.At(FIRST).intent == intent && before.At(FIRST).now == intent.instruction.signedAt
    requires HasRead(before.At(FIRST)) && before.At(FIRST).tx.auth == Registry.Allowed(SampleLimits(w, intent))
    requires SequenceOf(ReqOf(w, before.At(FIRST))) !in before.db.sequences
    ensures PastSelecting(s.At(FIRST)) && Instruction.WellFormed(intent.instruction)
  {
    TxIsOk(w, s, FIRST);
    hide Isolated, Alone, Facts, LocksInRange, Instruction.WellFormed, Reasons, KeyOf;
    CommitterHasReasons(w, s, FIRST);
    SampleVerdict(w, s.db, ReqOf(w, s.At(FIRST)), s.At(FIRST).tx);
  }

  // ---------------------------------------------------------------------------------------------
  // A revocation too late
  // ---------------------------------------------------------------------------------------------

  /** A run whose step m reads the authorization, whose step v revokes the device, and whose step n settles. */
  ghost predicate SettledAfterRevocation(w: World, r: Run, device: DeviceId, m: nat, v: nat, n: nat) {
    && IsRun(w, r) && m < v < n && r.step(n) == Commit(FIRST, true)
    && ReadAt(w, r, m, FIRST, r.state(n).At(FIRST))
    && r.step(v) == Operate(Spec.RevokeDevice(device, Blank))
    && r.state(n).At(FIRST).tx.verdict.Settle? && ReqOf(w, r.state(n).At(FIRST)).device == device
    && !IsActive(r.state(n).db, device)
  }

  /** An act that leaves claims and allowances alone leaves the delivery as it was. */
  lemma UndisturbedUnderWay(w: World, ready: Database, s: State, s': State, intent: Intent)
    requires UnderWay(w, ready, s, intent) && s'.deliveries == s.deliveries
    requires s'.db.claims == s.db.claims && s'.db.envelopes == s.db.envelopes
    ensures Alone(w, s', FIRST)
  {
    assert forall i: nat :: s'.At(i) == s.At(i);
    hide KeyOf;
  }

  /** An operator acts beside the delivery, on rows that it has not locked. */
  lemma ActsBeside(w: World, r: Run, n: nat, ready: Database, intent: Intent, act: Spec.OperatorAct, db': Database)
      returns (r': Run)
    requires IsRun(w, r) && UnderWay(w, ready, r.state(n), intent)
    requires r.state(n).At(FIRST).tx.locks !! OperatorLocks(act)
    requires Spec.Operate(r.state(n).db, w.unique, act, r.state(n).nextEntry) == Some(db')
    requires db'.claims == r.state(n).db.claims && db'.envelopes == r.state(n).db.envelopes
    ensures IsRun(w, r') && Agree(r, r', n) && r'.step(n) == Operate(act)
    ensures r'.state(n + 1).db == db' && r'.state(n + 1).deliveries == r.state(n).deliveries
    ensures Alone(w, r'.state(n + 1), FIRST)
  {
    hide IsRun, Spec.Operate, OperatorLocks, NoneLocked, UnderWay, Alone;
    NothingIsLocked(w, ready, r.state(n), intent, OperatorLocks(act));
    r' := ActsMeanwhile(w, r, n, act, db');
    assert r'.After(n) == r'.state(n + 1);
    UndisturbedUnderWay(w, ready, r.state(n), r'.state(n + 1), intent);
  }

  /** In every world, for every payment its service can open: a revocation can come too late. */
  lemma RevocationCanComeTooLate(w: World, ring: KeyRing.Ring, wire: bytes, intent: Intent)
      returns (r: Run, m: nat, v: nat, n: nat)
    requires IsSample(w, ring, wire, intent)
    ensures SettledAfterRevocation(w, r, w.deviceIdOf(intent.publicKey), m, v, n)
  {
    hide IsRun, Sound, Alone, Execute, Instruction.WellFormed, Reasons, AuthorizeRequest, KeyOf;
    var device := w.deviceIdOf(intent.publicKey);
    var a, i, ready := GetsAuthorized(w, ring, wire, intent, true);
    m, v := i, i + 1;
    assert a.After(m) == a.state(v);
    var db := a.state(v).db;
    var c := ActsBeside(w, a, v, ready.db, intent, Spec.RevokeDevice(device, Blank),
      db.(devices := Registry.Revoke(db.devices, device, Blank)));
    var k := v + 1;
    r, n := ComesToCommit(w, c, k, intent);
    SampleVerdict(w, r.state(n).db, ReqOf(w, r.state(n).At(FIRST)), r.state(n).At(FIRST).tx);
  }

  lemma NothingIsLocked(w: World, ready: Database, s: State, intent: Intent, locks: set<Lock>)
    requires UnderWay(w, ready, s, intent) && s.At(FIRST).tx.locks !! locks
    ensures NoneLocked(s, locks)
  {
    hide HeldBy, CanStillSpend;
  }

  // ---------------------------------------------------------------------------------------------
  // An account opened too late
  // ---------------------------------------------------------------------------------------------

  /** Step k is the SELECT, step v opens the payee's account, and step n refuses the payment for want of it. */
  ghost predicate RefusedAfterOpening(w: World, r: Run, payee: Vpa, k: nat, v: nat, n: nat) {
    && IsRun(w, r) && k < v < n && r.step(n) == Commit(FIRST, true)
    && SelectsAt(w, r, k, FIRST, r.state(n).At(FIRST))
    && r.step(v) == Operate(Spec.OpenAccount(payee)) && payee in r.state(n).db.accounts
    && r.state(n).At(FIRST).tx.verdict == Refuse(UnknownAccount, NoSuchAccount(payee))
  }

  /** The sequence number is recorded, and the SELECT takes its snapshot. */
  lemma RecordsAndSelects(w: World, db: Database, next: nat, d: InFlight)
    requires Instruction.WellFormed(d.intent.instruction) && SequenceOf(ReqOf(w, d)) !in db.sequences
    requires d.pc == Sequencing && d.tx == NO_TX.(auth := Registry.Allowed(SampleLimits(w, d.intent)))
    ensures var b := Execute(w, db, next, d);
            var c := Execute(w, db, next, b);
            && b.pc == Selecting && c.pc == LockingFirst && c.tx.visible == db.accounts.Keys
            && c.tx.auth == d.tx.auth && c.tx.locks == {SequenceRow(SequenceOf(ReqOf(w, d)))}
  {
    hide Record, AuthorizeRequest, AfterLocking, KeyTaken, Ledger.Move, Registry.Consume, Instruction.WellFormed, KeyOf;
  }

  /** The sample's delivery, past its SELECT, which did not find the payee. */
  lemma GetsPastSelecting(w: World, ring: KeyRing.Ring, wire: bytes, intent: Intent)
      returns (r: Run, k: nat, ready: State)
    requires IsSample(w, ring, wire, intent) && intent.instruction.receiverVpa != HOUSE_VPA
    ensures IsRun(w, r) && r.step(k) == Run(FIRST) && r.state(k).At(FIRST).pc == Selecting
    ensures IsReady(w, ready, ring, intent, false) && Instruction.WellFormed(intent.instruction)
    ensures UnderWay(w, ready.db, r.After(k), intent) && OnlyMoved(r.state(k), r.After(k), FIRST)
    ensures var d := r.After(k).At(FIRST);
            && d.pc == LockingFirst && d.tx.visible == r.state(k).db.accounts.Keys
            && d.tx.auth == Registry.Allowed(SampleLimits(w, intent))
            && d.tx.locks == {SequenceRow(SequenceOf(ReqOf(w, d)))}
  {
    hide IsRun, Sound, Alone, Execute, Instruction.WellFormed, Reasons, PastSelecting, AuthorizeRequest, KeyOf;
    var a, i, start := GetsAuthorized(w, ring, wire, intent, false);
    ready := start;
    var j := i + 1;
    assert a.After(i) == a.state(j);
    var s := a.state(j);
    RecordsAndSelects(w, s.db, s.nextEntry, s.At(FIRST));
    var b := RunsOnce(w, a, j, ready.db, intent);
    k := j + 1;
    assert b.After(j) == b.state(k);
    r := RunsOnce(w, b, k, ready.db, intent);
    SameStatement(w, s.db, s.nextEntry, b.state(k).nextEntry, b.state(k).At(FIRST));
  }

  /**
   * In every world, for every payment its service can open but one to the house, whose account always
   * exists: the payee's account can be opened too late.
   */
  lemma AccountCanOpenTooLate(w: World, ring: KeyRing.Ring, wire: bytes, intent: Intent)
      returns (r: Run, k: nat, v: nat, n: nat)
    requires IsSample(w, ring, wire, intent) && intent.instruction.receiverVpa != HOUSE_VPA
    ensures RefusedAfterOpening(w, r, intent.instruction.receiverVpa, k, v, n)
  {
    hide IsRun, Sound, Alone, Execute, Instruction.WellFormed, Reasons, AuthorizeRequest, KeyOf;
    var payee := intent.instruction.receiverVpa;
    var a, i, ready := GetsPastSelecting(w, ring, wire, intent);
    k, v := i, i + 1;
    assert a.After(k) == a.state(v);
    var db := a.state(v).db;
    var c := ActsBeside(w, a, v, ready.db, intent, Spec.OpenAccount(payee),
      db.(accounts := db.accounts[payee := Account(Customer, 0)]));
    var l := v + 1;
    r, n := ComesToCommit(w, c, l, intent);
    SampleVerdict(w, r.state(n).db, ReqOf(w, r.state(n).At(FIRST)), r.state(n).At(FIRST).tx);
  }

  /** Only a journal entry depends on the next identity. */
  lemma SameStatement(w: World, db: Database, next: nat, next': nat, d: InFlight)
    requires d.pc == Selecting
    ensures Execute(w, db, next, d) == Execute(w, db, next', d)
  {
    hide Record, Check, KeyOf;
  }

  // ---------------------------------------------------------------------------------------------
  // A world
  // ---------------------------------------------------------------------------------------------

  const PAYMENT: Instruction.PaymentInstruction :=
    Instruction.PaymentInstruction("al@up", "bo@up", 40, "00000000-0000-4000-8000-000000000000", 1, 0, 60_000)

  lemma ShortVpa(s: string)
    requires |s| == 5 && s[2] == '@' && forall i :: 0 <= i < 5 && i != 2 ==> 'a' <= s[i] <= 'z'
    ensures Instruction.IsVpa(s)
  {
    assert Instruction.IsVpaSplitAt(s, 2);
  }

  lemma NonceIsUuid()
    ensures Instruction.IsUuidV4(PAYMENT.nonce)
  {}

  lemma PaymentIsWellFormed()
    ensures Instruction.WellFormed(PAYMENT)
  {
    hide Instruction.IsVpa, Instruction.IsUuidV4;
    ShortVpa(PAYMENT.senderVpa);
    ShortVpa(PAYMENT.receiverVpa);
    NonceIsUuid();
  }

  /** Bytes as text, one character each: nothing collides. */
  function AsText(b: bytes): string {
    seq(|b|, i requires 0 <= i < |b| => b[i] as char)
  }

  lemma TextsDiffer(a: bytes, b: bytes)
    requires AsText(a) == AsText(b)
    ensures a == b
  {
    assert |AsText(a)| == |AsText(b)|;
    forall i | 0 <= i < |a|
      ensures a[i] == b[i]
    {
      assert AsText(a)[i] == AsText(b)[i];
    }
  }

  /** A world in which every envelope holds one and the same payment. */
  const ONE_PAYMENT: World :=
    World((wire: bytes, ring: KeyRing.Ring) => Opened(Intent(PAYMENT, [])), AsText, (key: bytes) => "phone", true)

  lemma OnePaymentIsASample(ring: KeyRing.Ring, wire: bytes)
    ensures IsSample(ONE_PAYMENT, ring, wire, Intent(PAYMENT, []))
  {
    hide Instruction.WellFormed;
    PaymentIsWellFormed();
    forall a, b | ONE_PAYMENT.fingerprint(a) == ONE_PAYMENT.fingerprint(b)
      ensures a == b
    {
      TextsDiffer(a, b);
    }
  }

  /** So both things do happen. */
  lemma BothHappen()
    ensures exists r, m, v, n :: SettledAfterRevocation(ONE_PAYMENT, r, "phone", m, v, n)
    ensures exists r, k, v, n :: RefusedAfterOpening(ONE_PAYMENT, r, "bo@up", k, v, n)
  {
    hide SettledAfterRevocation, RefusedAfterOpening, IsSample;
    var ring, intent := KeyRing.Ring(map[], 0), Intent(PAYMENT, []);
    OnePaymentIsASample(ring, []);
    assert |HOUSE_VPA| != |PAYMENT.receiverVpa|;
    var r, m, v, n := RevocationCanComeTooLate(ONE_PAYMENT, ring, [], intent);
    var r', k, v', n' := AccountCanOpenTooLate(ONE_PAYMENT, ring, [], intent);
  }
}
