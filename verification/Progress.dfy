/** A delivery with no open transaction beside it finishes: the steps exist, one by one. */
module Progress {
  import opened Bytes
  import opened Wrappers
  import opened Tables
  import opened Claims
  import opened Ingest
  import opened Protocol
  import opened Isolation
  import opened Safety
  import opened Runs
  import opened Verdicts
  import Consistency
  import History
  import Instruction
  import KeyRing
  import Ledger
  import Registry

  // ---------------------------------------------------------------------------------------------
  // Longer runs
  // ---------------------------------------------------------------------------------------------

  /** The run that takes this step at n, and then rests. */
  function Then(w: World, r: Run, n: nat, step: Step): Run {
    var s' := Next(w, r.state(n), step);
    RunOf((i: nat) => if i <= n then r.state(i) else s',
          (i: nat) => if i < n then r.step(i) else if i == n then step else Tick(s'.clock))
  }

  /** The same up to state n. */
  ghost predicate Agree(r: Run, r': Run, n: nat) {
    && (forall i: nat :: i <= n ==> r'.state(i) == r.state(i))
    && (forall i: nat :: i < n ==> r'.step(i) == r.step(i))
  }

  lemma TakeStep(w: World, r: Run, n: nat, step: Step) returns (r': Run)
    requires IsRun(w, r) && Enabled(w, r.state(n), step)
    ensures IsRun(w, r') && Agree(r, r', n) && r'.step(n) == step && r'.After(n) == Next(w, r.state(n), step)
  {
    r' := Then(w, r, n, step);
    var s' := Next(w, r.state(n), step);
    RestsOnTick(w, s');
    hide Next, Enabled, Initial;
    forall i: nat
      ensures Follows(w, r', i)
    {
      assert Follows(w, r, i);
    }
  }

  lemma RestsOnTick(w: World, s: State)
    ensures Enabled(w, s, Tick(s.clock)) && Next(w, s, Tick(s.clock)) == s
  {
    hide Execute, Operated, AfterAcquire, LookedUp, Unsealed, Found, AfterCommit, Noted, Wants, Free, NoneLocked;
  }

  /** A service that has just been set up, with these keys. */
  function FirstState(ring: KeyRing.Ring): State {
    State(EMPTY_DATABASE, 0, 1, ring, {}, map[], [])
  }

  /** A run in which nothing happens. */
  function Resting(s: State): Run {
    RunOf((i: nat) => s, (i: nat) => Tick(s.clock))
  }

  lemma RestingIsARun(w: World, s: State)
    requires Initial(s)
    ensures IsRun(w, Resting(s))
  {
    RestsOnTick(w, s);
    hide Enabled, Next, Initial;
  }

  /** A run that goes on from state n to state m by steps of one delivery alone. */
  ghost predicate Continues(w: World, r: Run, n: nat, r': Run, m: nat, id: nat) {
    && IsRun(w, r') && Agree(r, r', n) && n <= m
    && forall i: nat :: n <= i < m ==> MoverOf(r'.step(i)) == Some(id)
  }

  lemma ContinuesTwice(w: World, a: Run, n: nat, b: Run, m: nat, c: Run, k: nat, id: nat)
    requires Continues(w, a, n, b, m, id) && Continues(w, b, m, c, k, id)
    ensures Continues(w, a, n, c, k, id)
  {
    hide IsRun, MoverOf;
  }

  /** One step of this delivery, taken. */
  lemma Moving(w: World, r: Run, n: nat, step: Step, id: nat) returns (r': Run, m: nat)
    requires IsRun(w, r) && Enabled(w, r.state(n), step) && MoverOf(step) == Some(id)
    ensures Continues(w, r, n, r', m, id) && r'.state(m) == Next(w, r.state(n), step) && m == n + 1
    ensures r'.step(n) == step
  {
    hide IsRun, Enabled, Next, MoverOf;
    r' := TakeStep(w, r, n, step);
    m := n + 1;
    assert r'.After(n) == r'.state(m);
  }

  // ---------------------------------------------------------------------------------------------
  // One statement
  // ---------------------------------------------------------------------------------------------

  /** How far inside its transaction a delivery is. */
  function Stage(pc: Pc): (n: nat)
    ensures n <= 13
  {
    match pc
    case Sequencing => 1
    case ReadingSequence => 2
    case Revoking => 3
    case Selecting => 4
    case LockingFirst => 5
    case LockingSecond => 6
    case Journaling => 7
    case Debiting => 8
    case Crediting => 9
    case Consuming => 10
    case Receipting => 11
    case Marking => 12
    case Committing => 13
    case _ => 0
  }

  /** What the device was allowed has not been spent since. */
  predicate CanStillSpend(w: World, db: Database, d: InFlight) {
    HasRead(d) && d.tx.auth.Allowed? ==>
      && ReqOf(w, d).device in db.envelopes
      && db.envelopes[ReqOf(w, d).device].allowance >= d.tx.auth.limits.allowance
  }

  /** The statement is followed by another of the same transaction, never by a rollback. */
  ghost predicate GoesOn(w: World, db: Database, d: InFlight, d': InFlight) {
    InTx(d'.pc) && Stage(d.pc) < Stage(d'.pc) && CanStillSpend(w, db, d')
  }

  lemma CheckGoesOn(w: World, db: Database, d: InFlight)
    requires d.pc == Authorizing || d.pc == Sequencing || d.pc == ReadingSequence || d.pc == Revoking
    requires CheckFacts(db, d.pc, ReqOf(w, d), d.tx) && CanStillSpend(w, db, d)
    ensures GoesOn(w, db, d, Check(w, db, d))
  {
    hide FreshnessProblem, Registry.LimitProblem, RevokedRow, KeyOf;
  }

  lemma LocksGoOn(w: World, db: Database, next: nat, d: InFlight)
    requires (d.pc == Selecting || d.pc == LockingFirst || d.pc == LockingSecond) && CanStillSpend(w, db, d)
    ensures GoesOn(w, db, d, Pay(w, db, next, d))
  {
    hide KeyTaken, KeyOf, Ledger.Move, Registry.Consume, First, Second;
  }

  lemma PayGoesOn(w: World, db: Database, next: nat, d: InFlight)
    requires d.pc == Journaling || d.pc == Debiting || d.pc == Crediting || d.pc == Consuming
    requires PayFacts(w, db, d.pc, ReqOf(w, d), d.tx) && CanStillSpend(w, db, d)
    requires !KeyTaken(db.entries, KeyIn(d)) && 0 < d.intent.instruction.amountPaise && NobodyOverdrawn(db)
    ensures GoesOn(w, db, d, Pay(w, db, next, d))
  {
    hide FreshnessProblem, OwnsSequence, HasEntry, KeyTaken, KeyOf, BothRows, DebitedRow, Registry.LimitProblem,
      AfterLocking;
    var p, limits := d.intent.instruction, d.tx.auth.limits;
    LimitsMean(limits, p.amountPaise);
    assert !Ledger.Overdrawn(Ledger.RowOf(db.accounts, p.receiverVpa), 0);
  }

  lemma RecordGoesOn(w: World, db: Database, d: InFlight)
    requires IsRecording(d.pc) && CanStillSpend(w, db, d) && HeldBy(db.claims, KeyIn(d), HolderIn(d))
    ensures GoesOn(w, db, d, Record(w, db, d))
  {
    hide HeldBy;
  }

  /** Nobody else has locked anything. */
  ghost predicate OthersIdle(s: State, id: nat) {
    forall i: nat :: i != id ==> s.At(i).tx.locks == {}
  }

  /** In its transaction, holding its claim, and alone. */
  ghost predicate Alone(w: World, s: State, id: nat) {
    && InTx(s.At(id).pc) && OthersIdle(s, id) && CanStillSpend(w, s.db, s.At(id))
    && HeldBy(s.db.claims, KeyIn(s.At(id)), HolderIn(s.At(id)))
  }

  lemma StatementGoesOn(w: World, s: State, id: nat)
    requires Safe(w, s) && Alone(w, s, id) && s.At(id).pc != Committing
    ensures GoesOn(w, s.db, s.At(id), Execute(w, s.db, s.nextEntry, s.At(id)))
  {
    var d := s.At(id);
    TxIsOk(w, s, id);
    NobodyIsOverdrawn(s.db);
    assert 0 < d.intent.instruction.amountPaise;
    hide Isolated, WellHeld, Faithful, RepliesTrue, History.HistoryTrue, Consistency.Consistent, PayFacts, RecordFacts,
      CheckFacts, Check, Pay, Record, LocksInRange, CanStillSpend, GoesOn, OthersIdle, KeyTaken, NobodyOverdrawn,
      Instruction.WellFormed;
    Consistency.UndecidedLeavesNoTrace(s.db, ReqOf(w, d));
    if d.pc == Selecting || d.pc == LockingFirst || d.pc == LockingSecond {
      LocksGoOn(w, s.db, s.nextEntry, d);
    } else if IsPaying(d.pc) {
      PayGoesOn(w, s.db, s.nextEntry, d);
    } else if IsRecording(d.pc) {
      RecordGoesOn(w, s.db, d);
    } else {
      CheckGoesOn(w, s.db, d);
    }
  }

  // ---------------------------------------------------------------------------------------------
  // One transaction
  // ---------------------------------------------------------------------------------------------

  /** Only this delivery has moved, inside its transaction: the tables are the same. */
  ghost predicate OnlyMoved(s: State, s': State, id: nat) {
    && s' == s.(nextEntry := s'.nextEntry, deliveries := s.deliveries[id := s'.At(id)]) && id in s'.deliveries
    && s'.At(id) == s.At(id).(pc := s'.At(id).pc, tx := s'.At(id).tx)
  }

  /** What authorize and the SELECT have read stays read; if the SELECT comes in between, it sees these tables. */
  ghost predicate ReadingsKept(db: Database, d: InFlight, d': InFlight) {
    && (HasRead(d) ==> HasRead(d') && d'.tx.auth == d.tx.auth)
    && (PastSelecting(d) ==> PastSelecting(d') && d'.tx.visible == d.tx.visible)
    && (!PastSelecting(d) && PastSelecting(d') ==> d'.tx.visible == db.accounts.Keys)
  }

  /** From one state of a delivery's transaction to a later one. */
  ghost predicate Advanced(w: World, s: State, s': State, id: nat) {
    Alone(w, s', id) && OnlyMoved(s, s', id) && ReadingsKept(s.db, s.At(id), s'.At(id))
  }

  lemma RunAlone(w: World, s: State, id: nat)
    requires Safe(w, s) && Alone(w, s, id) && s.At(id).pc != Committing
    ensures Enabled(w, s, Run(id))
    ensures Advanced(w, s, Next(w, s, Run(id)), id) && Stage(s.At(id).pc) < Stage(Next(w, s, Run(id)).At(id).pc)
    ensures Next(w, s, Run(id)).At(id) == Execute(w, s.db, s.nextEntry, s.At(id))
  {
    hide Isolated, TablesGood, WellHeld, Faithful, RepliesTrue, History.HistoryTrue, Execute, Next, AuthorizeRequest,
      PastSelecting, Stage, KeyOf, Wants, CanStillSpend, ReqOf, Advanced, OthersIdle, HeldBy, StatementMoves,
      ReadingsStay, Enabled;
    var d, d' := s.At(id), Execute(w, s.db, s.nextEntry, s.At(id));
    StatementGoesOn(w, s, id);
    RunUnfolds(w, s, id);
    TxIsOk(w, s, id);
    EffectOfStatement(w, s.db, s.nextEntry, d);
    StatementKeepsReadings(w, s.db, s.nextEntry, d);
    AloneMayRun(w, s, id);
    Advances(w, s, id, d', Next(w, s, Run(id)));
  }

  lemma AloneMayRun(w: World, s: State, id: nat)
    requires OthersIdle(s, id) && InTx(s.At(id).pc) && s.At(id).pc != Committing
    ensures Enabled(w, s, Run(id))
  {
    hide Wants;
  }

  lemma Advances(w: World, s: State, id: nat, d': InFlight, s': State)
    requires Alone(w, s, id) && StatementMoves(w, s.db, s.nextEntry, s.At(id), d') && CanStillSpend(w, s.db, d')
    requires InTx(d'.pc) && d'.pc != Authorizing && ReadingsStay(w, s.db, s.At(id), d')
    requires s' == s.With(id, d').(nextEntry := s'.nextEntry)
    ensures Advanced(w, s, s', id)
  {
    hide HeldBy, KeyOf, Wants, CanStillSpend, AuthorizeRequest, ReqOf;
    assert forall i: nat :: i != id ==> s'.At(i) == s.At(i);
  }

  lemma RunUnfolds(w: World, s: State, id: nat)
    ensures Next(w, s, Run(id)) == s.With(id, Execute(w, s.db, s.nextEntry, s.At(id))).(
              nextEntry := if s.At(id).pc == Journaling then s.nextEntry + 1 else s.nextEntry)
  {
    hide Execute, Operated, AfterAcquire, LookedUp, Unsealed, Found, AfterCommit, Noted;
  }

  lemma AdvancedTwice(w: World, a: State, b: State, c: State, id: nat)
    requires Advanced(w, a, b, id) && Advanced(w, b, c, id)
    ensures Advanced(w, a, c, id)
  {
    hide Alone, HasRead, PastSelecting;
  }

  /** Statement by statement, a delivery alone reaches its COMMIT. */
  lemma {:induction false} RunsToCommit(w: World, r: Run, n: nat, id: nat) returns (r': Run, m: nat)
    requires Sound(w) && IsRun(w, r) && Alone(w, r.state(n), id)
    ensures Continues(w, r, n, r', m, id) && r'.state(m).At(id).pc == Committing
    ensures Advanced(w, r.state(n), r'.state(m), id)
    decreases 13 - Stage(r.state(n).At(id).pc)
  {
    hide Sound, IsRun, Safe, Alone, Enabled, Next, HasRead, PastSelecting, Execute;
    if r.state(n).At(id).pc == Committing {
      r', m := r, n;
      StaysPut(r.state(n), id);
    } else {
      ReachableIsSafe(w, r, n);
      RunAlone(w, r.state(n), id);
      var next, k := Moving(w, r, n, Run(id), id);
      r', m := RunsToCommit(w, next, k, id);
      AdvancedTwice(w, r.state(n), next.state(k), r'.state(m), id);
      ContinuesTwice(w, r, n, next, k, r', m, id);
    }
  }

  lemma StaysPut(s: State, id: nat)
    requires s.At(id).pc == Committing
    ensures OnlyMoved(s, s, id)
  {
    assert s.deliveries == s.deliveries[id := s.At(id)];
  }

  // ---------------------------------------------------------------------------------------------
  // A whole delivery
  // ---------------------------------------------------------------------------------------------

  /** No transaction is open. */
  ghost predicate Idle(s: State) {
    forall i: nat :: !InTx(s.At(i).pc)
  }

  /** As at first, but for one delivery and what fingerprints are stored. */
  ghost predicate StandsAt(first: State, s: State, id: nat, d: InFlight) {
    s == first.(db := first.db.(fingerprints := s.db.fingerprints), deliveries := first.deliveries[id := d])
  }

  /** What a delivery is when it is about to claim its payment. */
  function Claiming(wire: bytes, ring: KeyRing.Ring, now: int, intent: Intent): InFlight {
    InFlight(wire, ring, now, Acquiring, intent, None, NO_TX)
  }

  lemma Arriving(w: World, s: State, id: nat, wire: bytes, ring: KeyRing.Ring, now: int)
    requires id !in s.deliveries && KeyRing.Extends(s.ring, ring)
    ensures Enabled(w, s, Arrive(id, wire, ring, now))
    ensures StandsAt(s, Next(w, s, Arrive(id, wire, ring, now)), id,
              Claiming(wire, ring, now, NO_INTENT).(pc := Protocol.LookingUp))
    ensures Next(w, s, Arrive(id, wire, ring, now)).db == s.db
  {
    hide Execute, Operated, AfterAcquire, LookedUp, Unsealed, Found, AfterCommit, Noted, Wants, Free, NoneLocked;
  }

  lemma LookingUp(w: World, first: State, s: State, id: nat, d: InFlight)
    requires StandsAt(first, s, id, d) && d.pc == Protocol.LookingUp && KnownDecision(s.db, w.fingerprint(d.wire)).None?
    ensures Enabled(w, s, LookUp(id)) && StandsAt(first, Next(w, s, LookUp(id)), id, d.(pc := Opening))
    ensures Next(w, s, LookUp(id)).db == s.db
  {
    hide Execute, Operated, AfterAcquire, Unsealed, Found, AfterCommit, Noted, Wants, Free, NoneLocked;
  }

  lemma OpeningIt(w: World, first: State, s: State, id: nat, d: InFlight, intent: Intent)
    requires StandsAt(first, s, id, d) && d.pc == Opening && w.open(d.wire, d.ring) == Opened(intent)
    ensures Enabled(w, s, OpenEnvelope(id))
    ensures StandsAt(first, Next(w, s, OpenEnvelope(id)), id, d.(pc := Noting, intent := intent))
  {
    hide Execute, Operated, AfterAcquire, LookedUp, Found, AfterCommit, Noted, Wants, Free, NoneLocked;
  }

  lemma NotingIt(w: World, first: State, s: State, id: nat, d: InFlight)
    requires StandsAt(first, s, id, d) && d.pc == Noting
    ensures Enabled(w, s, NoteFingerprint(id, true))
    ensures StandsAt(first, Next(w, s, NoteFingerprint(id, true)), id, d.(pc := Acquiring))
  {
    hide Execute, Operated, AfterAcquire, LookedUp, Unsealed, Found, AfterCommit, Wants, Free, NoneLocked, KeyOf;
  }

  /** Arrived, looked up in vain, opened and noted: a delivery comes to claim its payment. */
  lemma ComesToClaim(w: World, r: Run, n: nat, id: nat, wire: bytes, ring: KeyRing.Ring, now: int, intent: Intent)
      returns (r': Run, m: nat)
    requires IsRun(w, r) && id !in r.state(n).deliveries && KeyRing.Extends(r.state(n).ring, ring)
    requires w.open(wire, ring) == Opened(intent) && KnownDecision(r.state(n).db, w.fingerprint(wire)).None?
    ensures Continues(w, r, n, r', m, id)
    ensures StandsAt(r.state(n), r'.state(m), id, Claiming(wire, ring, now, intent))
  {
    hide IsRun, Enabled, Next;
    var s, d := r.state(n), Claiming(wire, ring, now, NO_INTENT).(pc := Protocol.LookingUp);
    Arriving(w, s, id, wire, ring, now);
    var a, k := Moving(w, r, n, Arrive(id, wire, ring, now), id);
    LookingUp(w, s, a.state(k), id, d);
    var b, l := Moving(w, a, k, LookUp(id), id);
    OpeningIt(w, s, b.state(l), id, d.(pc := Opening), intent);
    var c, j := Moving(w, b, l, OpenEnvelope(id), id);
    NotingIt(w, s, c.state(j), id, d.(pc := Noting, intent := intent));
    r', m := Moving(w, c, j, NoteFingerprint(id, true), id);
    hide StandsAt, Continues;
    ContinuesTwice(w, r, n, a, k, b, l, id);
    ContinuesTwice(w, r, n, b, l, c, j, id);
    ContinuesTwice(w, r, n, c, j, r', m, id);
  }

  /** Nobody else being in a transaction, the claim's row is not locked. */
  lemma ClaimIsUnlocked(w: World, first: State, s: State, id: nat, d: InFlight)
    requires Isolated(w, first) && Idle(first) && StandsAt(first, s, id, d)
    ensures OthersIdle(s, id) && Free(s, Some(ClaimRow(KeyIn(d))), id)
  {
    hide Isolated, KeyOf;
    forall i: nat | i != id
      ensures s.At(i).tx.locks == {}
    {
      TxIsOk(w, first, i);
      assert s.At(i) == first.At(i);
    }
  }

  /** A delivery as its transaction begins. */
  function Beginning(d: InFlight, holder: Holder): InFlight {
    d.(pc := Authorizing, holder := Some(holder), tx := NO_TX)
  }

  /** With nobody else's locks about, a takeable claim is taken and its transaction begins. */
  lemma TakesTheClaim(w: World, first: State, s: State, id: nat, d: InFlight, holder: Holder)
    requires Isolated(w, first) && Idle(first) && holder !in first.holders
    requires StandsAt(first, s, id, d) && d.pc == Acquiring && Takeable(first.db.claims, KeyIn(d), first.clock)
    ensures Enabled(w, s, TryAcquire(id, holder, s.clock))
    ensures var s' := Next(w, s, TryAcquire(id, holder, s.clock));
            && Alone(w, s', id) && s'.At(id) == Beginning(d, holder)
            && s' == s.(db := s.db.(claims := s'.db.claims), holders := s'.holders,
                 deliveries := s.deliveries[id := Beginning(d, holder)])
  {
    hide Isolated, Next, Wants, Free, NoneLocked, KeyOf, Takeable, TakenBy, HeldBy, OthersIdle;
    ClaimIsUnlocked(w, first, s, id, d);
    TakenUnfolds(w, s, id, d, holder);
    BeginsAlone(w, s, Next(w, s, TryAcquire(id, holder, s.clock)), id, Beginning(d, holder));
  }

  lemma TakenUnfolds(w: World, s: State, id: nat, d: InFlight, holder: Holder)
    requires s.At(id) == d && Takeable(s.db.claims, KeyIn(d), s.clock)
    ensures Next(w, s, TryAcquire(id, holder, s.clock))
            == s.(holders := s.holders + {holder}).With(id, Beginning(d, holder)).(
                 db := s.db.(claims := TakenBy(s.db.claims, KeyIn(d), holder, s.clock + DEFAULT_LEASE_MS)))
    ensures HeldBy(TakenBy(s.db.claims, KeyIn(d), holder, s.clock + DEFAULT_LEASE_MS), KeyIn(d), holder)
  {
    hide Execute, Operated, LookedUp, Unsealed, Found, AfterCommit, Noted, KeyOf;
  }

  lemma BeginsAlone(w: World, s: State, s': State, id: nat, d': InFlight)
    requires OthersIdle(s, id) && s'.deliveries == s.deliveries[id := d'] && d'.pc == Authorizing
    requires HeldBy(s'.db.claims, KeyIn(d'), HolderIn(d'))
    ensures Alone(w, s', id)
  {
    hide HeldBy, KeyOf;
    assert forall i: nat :: i != id ==> s'.At(i) == s.At(i);
  }

  /** A delivery in its transaction and alone ends in an announced decision. */
  lemma HolderFinishes(w: World, r: Run, n: nat, id: nat) returns (r': Run, m: nat)
    requires Sound(w) && IsRun(w, r) && Alone(w, r.state(n), id)
    ensures Continues(w, r, n, r', m, id) && Answer(r'.state(m), id).Some?
    ensures DecidedIn(r'.state(m).db.claims, KeyIn(r.state(n).At(id)))
  {
    hide Sound, IsRun, Alone, Enabled, Next, HasRead, PastSelecting, Isolated, TablesGood, WellHeld, Faithful,
      RepliesTrue, History.HistoryTrue, KeyOf, Continues, Answer;
    var a, k := RunsToCommit(w, r, n, id);
    assert IsRun(w, a) by {
      assert Continues(w, r, n, a, k, id);
      ContinuesIsRun(w, r, n, a, k, id);
    }
    ReachableIsSafe(w, a, k);
    Committed(w, a.state(k), id);
    r', m := Moving(w, a, k, Commit(id, true), id);
    ContinuesTwice(w, r, n, a, k, r', m, id);
  }

  lemma ContinuesIsRun(w: World, r: Run, n: nat, r': Run, m: nat, id: nat)
    requires Continues(w, r, n, r', m, id)
    ensures IsRun(w, r')
  {
    hide IsRun;
  }

  /** Committed and acknowledged, the decision is announced. */
  lemma Committed(w: World, s: State, id: nat)
    requires Safe(w, s) && s.At(id).pc == Committing
    ensures Enabled(w, s, Commit(id, true)) && Answer(Next(w, s, Commit(id, true)), id).Some?
    ensures DecidedIn(Next(w, s, Commit(id, true)).db.claims, KeyIn(s.At(id)))
  {
    hide Isolated, TablesGood, WellHeld, Faithful, RepliesTrue, History.HistoryTrue, KeyOf, Execute, Operated,
      AfterAcquire, LookedUp, Unsealed, Found, Noted, Wants, Free, NoneLocked, Merge, ReqOf, HeldBy;
    CommitMovesClaims(w, s, id, true);
  }

  /** A delivery of a payment that is decided already finds the claim and replays it. */
  lemma FindsTheClaim(w: World, first: State, s: State, id: nat, d: InFlight, holder: Holder)
    requires Isolated(w, first) && Idle(first) && holder !in first.holders
    requires StandsAt(first, s, id, d) && d.pc == Acquiring && DecidedIn(first.db.claims, KeyIn(d))
    ensures Enabled(w, s, TryAcquire(id, holder, s.clock))
    ensures var s' := Next(w, s, TryAcquire(id, holder, s.clock));
            && s'.db == s.db && s'.At(id) == d.(pc := Finding)
  {
    hide Isolated, Execute, Operated, LookedUp, Unsealed, Found, AfterCommit, Noted, Wants, Free, NoneLocked, KeyOf;
    ClaimIsUnlocked(w, first, s, id, d);
  }

  lemma Finds(w: World, s: State, id: nat)
    requires s.At(id).pc == Finding && DecidedIn(s.db.claims, KeyIn(s.At(id)))
    ensures Enabled(w, s, FindClaim(id)) && Next(w, s, FindClaim(id)).db == s.db
    ensures Answer(Next(w, s, FindClaim(id)), id).Some?
  {
    hide Execute, Operated, LookedUp, Unsealed, AfterCommit, Noted, Wants, Free, NoneLocked, KeyOf, AfterAcquire;
  }

  /** A delivery whose bytes are known to be decided is answered at once. */
  lemma Replays(w: World, s: State, id: nat)
    requires s.At(id).pc == Protocol.LookingUp && KnownDecision(s.db, w.fingerprint(s.At(id).wire)).Some?
    ensures Enabled(w, s, LookUp(id)) && Next(w, s, LookUp(id)).db == s.db
    ensures Answer(Next(w, s, LookUp(id)), id).Some?
  {
    hide Execute, Operated, Found, Unsealed, AfterCommit, Noted, Wants, Free, NoneLocked, KeyOf, AfterAcquire;
  }

  /** A delivery that is about to claim its payment, and may or finds it decided, ends in an announced decision. */
  lemma ClaimerFinishes(w: World, r: Run, n: nat, first: State, id: nat, d: InFlight, holder: Holder)
      returns (r': Run, m: nat)
    requires Sound(w) && IsRun(w, r) && Isolated(w, first) && Idle(first) && holder !in first.holders
    requires StandsAt(first, r.state(n), id, d) && d.pc == Acquiring
    requires Takeable(first.db.claims, KeyIn(d), first.clock) || DecidedIn(first.db.claims, KeyIn(d))
    ensures Continues(w, r, n, r', m, id) && Answer(r'.state(m), id).Some?
    ensures DecidedIn(r'.state(m).db.claims, KeyIn(d))
  {
    hide Sound, IsRun, Alone, Enabled, Next, Isolated, Idle, KeyOf, Answer, Takeable;
    var s := r.state(n);
    if Takeable(first.db.claims, KeyIn(d), first.clock) {
      TakesTheClaim(w, first, s, id, d, holder);
      var a, k := Moving(w, r, n, TryAcquire(id, holder, s.clock), id);
      r', m := HolderFinishes(w, a, k, id);
      ContinuesTwice(w, r, n, a, k, r', m, id);
    } else {
      FindsTheClaim(w, first, s, id, d, holder);
      var a, k := Moving(w, r, n, TryAcquire(id, holder, s.clock), id);
      Finds(w, a.state(k), id);
      r', m := Moving(w, a, k, FindClaim(id), id);
      ContinuesTwice(w, r, n, a, k, r', m, id);
    }
  }

  /**
   * From every reachable state with no open transaction, a process that can open a payment's envelope can
   * finish it, unless another delivery's lease on it is running: there are steps of one new delivery alone
   * that end with the decision announced.
   */
  lemma AnyPaymentCanFinish(w: World, r: Run, n: nat, id: nat, wire: bytes, ring: KeyRing.Ring, now: int,
                            intent: Intent, holder: Holder)
      returns (r': Run, m: nat)
    requires Sound(w) && IsRun(w, r) && Idle(r.state(n)) && id !in r.state(n).deliveries
    requires holder !in r.state(n).holders
    requires KeyRing.Extends(r.state(n).ring, ring) && w.open(wire, ring) == Opened(intent)
    requires Takeable(r.state(n).db.claims, KeyOf(intent), r.state(n).clock)
             || DecidedIn(r.state(n).db.claims, KeyOf(intent))
    ensures Continues(w, r, n, r', m, id) && Answer(r'.state(m), id).Some?
    ensures DecidedIn(r'.state(m).db.claims, KeyOf(intent))
  {
    hide Sound, IsRun, Isolated, TablesGood, WellHeld, Faithful, RepliesTrue, History.HistoryTrue, Idle, Takeable,
      Enabled, Next, KeyOf, Answer, Continues;
    var s := r.state(n);
    ReachableIsSafe(w, r, n);
    ReadingIsStable(w, ring, s.ring, wire);
    match KnownDecision(s.db, w.fingerprint(wire))
    case Some(key) =>
      FastPathAgrees(w, r, n, wire, key);
      Arriving(w, s, id, wire, ring, now);
      var a, k := Moving(w, r, n, Arrive(id, wire, ring, now), id);
      Replays(w, a.state(k), id);
      ContinuesIsRun(w, r, n, a, k, id);
      r', m := Moving(w, a, k, LookUp(id), id);
      ContinuesTwice(w, r, n, a, k, r', m, id);
    case None =>
      var a, k := ComesToClaim(w, r, n, id, wire, ring, now, intent);
      ContinuesIsRun(w, r, n, a, k, id);
      r', m := ClaimerFinishes(w, a, k, s, id, Claiming(wire, ring, now, intent), holder);
      ContinuesTwice(w, r, n, a, k, r', m, id);
  }
}
