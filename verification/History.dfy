/** What the log of committed decisions and operator acts says about the tables. */
module History {
  import opened Wrappers
  import opened Tables
  import opened Claims
  import opened Ingest
  import opened Protocol
  import opened Consistency
  import opened Safety
  import Instruction
  import KeyRing
  import Ledger
  import Registry
  import Spec

  // ---------------------------------------------------------------------------------------------
  // Decisions
  // ---------------------------------------------------------------------------------------------

  predicate DecidesAt(log: seq<Event>, n: nat, key: Key) {
    n < |log| && log[n].Decided? && log[n].req.key == key
  }

  /** One event for each decided payment, and it is what the claim records. */
  ghost predicate EventsMatchClaims(log: seq<Event>, claims: map<Key, Claim>) {
    && (forall n :: 0 <= n < |log| && log[n].Decided? ==>
          && log[n].req.key in claims && claims[log[n].req.key] == DecidedRow(log[n].req.holder, log[n].verdict))
    && (forall n, m :: 0 <= n < m < |log| && log[n].Decided? && log[m].Decided? ==> log[n].req.key != log[m].req.key)
    && (forall k :: DecidedIn(claims, k) ==> exists n: nat :: DecidesAt(log, n, k))
  }

  predicate UsesAt(log: seq<Event>, n: nat, q: SequenceNo, key: Key) {
    n < |log| && log[n].Decided? && SequenceOf(log[n].req) == q && log[n].req.key == key
  }

  /** A settled payment owns its sequence number; every used number was used by a logged decision. */
  ghost predicate EventsMatchSequences(log: seq<Event>, sequences: map<SequenceNo, Key>) {
    && (forall n :: 0 <= n < |log| && log[n].Decided? && log[n].verdict.Settle? ==>
          SequenceOf(log[n].req) in sequences && sequences[SequenceOf(log[n].req)] == log[n].req.key)
    && (forall q :: q in sequences ==> exists n: nat :: UsesAt(log, n, q, sequences[q]))
  }

  /** The decision is about the payment that the deciding delivery's envelope holds. */
  ghost predicate FromEnvelope(w: World, s: State, event: Event) {
    match event
    case Decided(id, req, _) =>
      && id in s.deliveries && w.open(s.At(id).wire, s.ring) == Opened(req.intent)
      && req.device == w.deviceIdOf(req.intent.publicKey) && req.key == KeyOf(req.intent)
    case ByOperator(_) => true
  }

  ghost predicate EventsFromEnvelopes(w: World, s: State) {
    forall n :: 0 <= n < |s.log| ==> FromEnvelope(w, s, s.log[n])
  }

  lemma EventsAfterDeciding(log: seq<Event>, claims: map<Key, Claim>, id: nat, req: Request, verdict: Verdict)
    requires EventsMatchClaims(log, claims) && !DecidedIn(claims, req.key)
    ensures EventsMatchClaims(log + [Decided(id, req, verdict)], claims[req.key := DecidedRow(req.holder, verdict)])
  {
    var log', claims' := log + [Decided(id, req, verdict)], claims[req.key := DecidedRow(req.holder, verdict)];
    forall n | 0 <= n < |log| && log[n].Decided?
      ensures log[n].req.key != req.key
    {
      assert DecidedIn(claims, log[n].req.key);
    }
    forall k | DecidedIn(claims', k)
      ensures exists n: nat :: DecidesAt(log', n, k)
    {
      if k == req.key {
        assert DecidesAt(log', |log|, k);
      } else {
        assert DecidedIn(claims, k);
        var n: nat :| DecidesAt(log, n, k);
        assert DecidesAt(log', n, k);
      }
    }
  }

  lemma EventsAfterClaiming(log: seq<Event>, claims: map<Key, Claim>, log': seq<Event>, claims': map<Key, Claim>)
    requires EventsMatchClaims(log, claims) && SameDecisions(claims, claims')
    requires log' == log || (|log'| == |log| + 1 && log'[..|log|] == log && log'[|log|].ByOperator?)
    ensures EventsMatchClaims(log', claims')
  {
    forall n | 0 <= n < |log'| && log'[n].Decided?
      ensures n < |log| && log'[n] == log[n] && DecidedIn(claims, log[n].req.key)
    {
      assert n < |log| ==> log'[..|log|][n] == log[n];
    }
    forall k | DecidedIn(claims', k)
      ensures exists n: nat :: DecidesAt(log', n, k)
    {
      var n: nat :| DecidesAt(log, n, k);
      assert log'[..|log|][n] == log[n];
      assert DecidesAt(log', n, k);
    }
  }

  lemma SequencesAfterDeciding(log: seq<Event>, a: map<SequenceNo, Key>, b: map<SequenceNo, Key>, id: nat,
                               req: Request, verdict: Verdict)
    requires EventsMatchSequences(log, a)
    requires b == a || (SequenceOf(req) !in a && b == a[SequenceOf(req) := req.key])
    requires verdict.Settle? ==> SequenceOf(req) in b && b[SequenceOf(req)] == req.key
    ensures EventsMatchSequences(log + [Decided(id, req, verdict)], b)
  {
    var log' := log + [Decided(id, req, verdict)];
    forall q | q in b
      ensures exists n: nat :: UsesAt(log', n, q, b[q])
    {
      if q in a && a[q] == b[q] {
        var n: nat :| UsesAt(log, n, q, a[q]);
        assert UsesAt(log', n, q, b[q]);
      } else {
        assert UsesAt(log', |log|, q, b[q]);
      }
    }
  }

  lemma SequencesAfterOperating(log: seq<Event>, sequences: map<SequenceNo, Key>, act: Spec.OperatorAct)
    requires EventsMatchSequences(log, sequences)
    ensures EventsMatchSequences(log + [ByOperator(act)], sequences)
  {
    forall q | q in sequences
      ensures exists n: nat :: UsesAt(log + [ByOperator(act)], n, q, sequences[q])
    {
      var n: nat :| UsesAt(log, n, q, sequences[q]);
      assert UsesAt(log + [ByOperator(act)], n, q, sequences[q]);
    }
  }

  // ---------------------------------------------------------------------------------------------
  // Allowances
  // ---------------------------------------------------------------------------------------------

  /** The allowance of the latest registration and the top-ups since. */
  function Granted(log: seq<Event>, device: DeviceId): int {
    if log == [] then 0 else
      var before := Granted(log[..|log| - 1], device);
      match log[|log| - 1]
      case ByOperator(RegisterDevice(d, _, _, allowance, _)) => if d == device then allowance else before
      case ByOperator(TopUpAllowance(d, amount)) => if d == device then before + amount else before
      case _ => before
  }

  /** What has been settled since the latest registration. */
  function Spent(log: seq<Event>, device: DeviceId): int {
    if log == [] then 0 else
      var before := Spent(log[..|log| - 1], device);
      match log[|log| - 1]
      case ByOperator(RegisterDevice(d, _, _, _, _)) => if d == device then 0 else before
      case Decided(_, req, Settle(_)) => if req.device == device then before + PaymentOf(req).amountPaise else before
      case _ => before
  }

  ghost predicate AllowancesConserved(log: seq<Event>, envelopes: map<DeviceId, OfflineEnvelope>) {
    forall d :: d in envelopes ==> envelopes[d].allowance == Granted(log, d) - Spent(log, d)
  }

  lemma AllowancesAfterDeciding(log: seq<Event>, a: map<DeviceId, OfflineEnvelope>, b: map<DeviceId, OfflineEnvelope>,
                                id: nat, req: Request, verdict: Verdict)
    requires AllowancesConserved(log, a)
    requires if verdict.Settle? then
               req.device in a && b == a[req.device :=
                   a[req.device].(allowance := a[req.device].allowance - PaymentOf(req).amountPaise)]
             else b == a
    ensures AllowancesConserved(log + [Decided(id, req, verdict)], b)
  {
    var log' := log + [Decided(id, req, verdict)];
    assert log'[..|log'| - 1] == log;
  }

  lemma AllowancesAfterOperating(log: seq<Event>, db: Database, unique: bool, act: Spec.OperatorAct, entry: nat,
                                 db': Database)
    requires AllowancesConserved(log, db.envelopes) && Spec.Operate(db, unique, act, entry) == Some(db')
    ensures AllowancesConserved(log + [ByOperator(act)], db'.envelopes)
  {
    hide Ledger.Precheck, Ledger.MoveAll, Registry.Registrable, Registry.RegisteredDevice, Registry.Revoke,
      Instruction.TopUpKey;
    var log' := log + [ByOperator(act)];
    assert log'[..|log'| - 1] == log;
  }

  // ---------------------------------------------------------------------------------------------
  // Every step keeps the history true
  // ---------------------------------------------------------------------------------------------

  ghost predicate LogTrue(log: seq<Event>, db: Database) {
    EventsMatchClaims(log, db.claims) && EventsMatchSequences(log, db.sequences)
    && AllowancesConserved(log, db.envelopes)
  }

  ghost predicate HistoryTrue(w: World, s: State) {
    LogTrue(s.log, s.db) && EventsFromEnvelopes(w, s)
  }

  /** What a decision, or an operator's act, adds to the log. */
  function Logged(w: World, s: State, step: Step): seq<Event> {
    match step
    case Commit(id, _) => [Decided(id, ReqOf(w, s.At(id)), s.At(id).tx.verdict)]
    case Operate(act) => if Spec.Operate(s.db, w.unique, act, s.nextEntry).Some? then [ByOperator(act)] else []
    case _ => []
  }

  lemma StepLogs(w: World, s: State, step: Step)
    ensures Next(w, s, step).log == s.log + Logged(w, s, step)
  {
    hide Execute, Spec.Operate, LookedUp, Unsealed, Found, TransientReply, AfterCommit, Upsert, Released, Merge, ReqOf,
      Noted, KeyIn;
    assert s.log + [] == s.log;
  }

  /** What was read stays readable, and what happens now comes from an open delivery's envelope. */
  lemma EventsStayFromEnvelopes(w: World, s: State, step: Step, s': State)
    requires Sound(w) && EventsFromEnvelopes(w, s) && WiresKept(s, s') && KeyRing.Extends(s'.ring, s.ring)
    requires s'.log == s.log + Logged(w, s, step)
    requires forall n :: 0 <= n < |Logged(w, s, step)| ==> FromEnvelope(w, s, Logged(w, s, step)[n])
    ensures EventsFromEnvelopes(w, s')
  {
    forall n | 0 <= n < |s'.log|
      ensures FromEnvelope(w, s', s'.log[n])
    {
      hide KeyOf, Logged, Spec.Operate, Sound;
      var event := if n < |s.log| then s.log[n] else Logged(w, s, step)[n - |s.log|];
      assert s'.log[n] == event && FromEnvelope(w, s, event);
      if event.Decided? {
        ReadingIsStable(w, s.ring, s'.ring, s.At(event.id).wire);
      }
    }
  }

  lemma CommitIsFromAnEnvelope(w: World, s: State, id: nat)
    requires Sound(w) && Faithful(w, s) && s.At(id).pc == Committing
    ensures FromEnvelope(w, s, Decided(id, ReqOf(w, s.At(id)), s.At(id).tx.verdict))
  {
    DeliveryReads(w, s, id);
  }

  /** A settlement uses its number and spends its amount; a refusal at most uses its number. */
  ghost predicate SequenceAndAllowance(db: Database, db': Database, req: Request, verdict: Verdict) {
    var q := SequenceOf(req);
    && (db'.sequences == db.sequences || (q !in db.sequences && db'.sequences == db.sequences[q := req.key]))
    && (verdict.Settle? ==> q in db'.sequences && db'.sequences[q] == req.key)
    && if verdict.Settle? then
         req.device in db.envelopes && db'.envelopes == db.envelopes[req.device :=
           db.envelopes[req.device].(allowance := db.envelopes[req.device].allowance - PaymentOf(req).amountPaise)]
       else db'.envelopes == db.envelopes
  }

  lemma DecisionsUseNumbers(db: Database, db': Database, req: Request, verdict: Verdict)
    requires Spec.DecidesOnce(Spec.View(db), Spec.View(db'), req, verdict)
    ensures SequenceAndAllowance(db, db', req, verdict)
  {
    hide Ledger.Paid, Ledger.Overdrawn, Spec.Decisions, Ledger.TransferPostings, Registry.Revoke;
  }

  lemma LogAfterDeciding(log: seq<Event>, db: Database, db': Database, id: nat, req: Request, verdict: Verdict)
    requires LogTrue(log, db) && HeldBy(db.claims, req.key, req.holder)
    requires db'.claims == db.claims[req.key := DecidedRow(req.holder, verdict)]
    requires SequenceAndAllowance(db, db', req, verdict)
    ensures LogTrue(log + [Decided(id, req, verdict)], db')
  {
    assert !DecidedIn(db.claims, req.key);
    hide EventsMatchClaims, EventsMatchSequences, AllowancesConserved, DecidedRow;
    EventsAfterDeciding(log, db.claims, id, req, verdict);
    SequencesAfterDeciding(log, db.sequences, db'.sequences, id, req, verdict);
    AllowancesAfterDeciding(log, db.envelopes, db'.envelopes, id, req, verdict);
  }

  lemma CommitKeepsLog(w: World, s: State, id: nat)
    requires Isolated(w, s) && TablesGood(s) && LogTrue(s.log, s.db) && s.At(id).pc == Committing
    ensures LogTrue(s.log + [Decided(id, ReqOf(w, s.At(id)), s.At(id).tx.verdict)], Merge(s.db, s.At(id).tx.pending))
  {
    hide Isolated, TablesGood, LogTrue, Merge, Decide, Consistent, Spec.DecidesOnce, Spec.View, SequenceAndAllowance,
      HeldBy, DecidedRow;
    var req, verdict, db' := ReqOf(w, s.At(id)), s.At(id).tx.verdict, Merge(s.db, s.At(id).tx.pending);
    CommitIsOneStep(w, s, id);
    DecisionsUseNumbers(s.db, db', req, verdict);
    LogAfterDeciding(s.log, s.db, db', id, req, verdict);
  }

  lemma OperatorKeepsLog(w: World, s: State, act: Spec.OperatorAct)
    requires TablesGood(s) && LogTrue(s.log, s.db)
    ensures LogTrue(Operated(w, s, act).log, Operated(w, s, act).db)
  {
    hide Spec.Operate, EventsMatchClaims, EventsMatchSequences, AllowancesConserved, Consistent, SameDecisions;
    var done := Spec.Operate(s.db, w.unique, act, s.nextEntry);
    if done.Some? {
      EffectOfOperating(s.db, w.unique, act, s.nextEntry, done.value);
      UnchangedDecisions(s.db);
      EventsAfterClaiming(s.log, s.db.claims, s.log + [ByOperator(act)], s.db.claims);
      SequencesAfterOperating(s.log, s.db.sequences, act);
      AllowancesAfterOperating(s.log, s.db, w.unique, act, s.nextEntry, done.value);
    }
  }

  lemma QuietStepKeepsLog(w: World, s: State, step: Step)
    requires TablesGood(s) && LogTrue(s.log, s.db) && !step.Commit? && !step.Operate?
    ensures LogTrue(Next(w, s, step).log, Next(w, s, step).db)
  {
    hide TablesGood, EventsMatchClaims, EventsMatchSequences, AllowancesConserved, SameDecisions, Next, Spec.Decisions,
      Spec.Operate;
    QuietStepRefines(w, s, step);
    StepLogs(w, s, step);
    assert s.log + [] == s.log;
    EventsAfterClaiming(s.log, s.db.claims, s.log, Next(w, s, step).db.claims);
  }

  lemma StepKeepsLog(w: World, s: State, step: Step)
    requires Isolated(w, s) && TablesGood(s) && LogTrue(s.log, s.db) && Enabled(w, s, step)
    ensures LogTrue(Next(w, s, step).log, Next(w, s, step).db)
  {
    hide Isolated, TablesGood, LogTrue, Merge, Operated, Next, Enabled, ReqOf, AfterCommit;
    match step
    case Commit(id, acknowledged) =>
      CommitUnfolds(w, s, id, acknowledged);
      CommitKeepsLog(w, s, id);
    case Operate(act) =>
      ActUnfolds(w, s, act);
      OperatorKeepsLog(w, s, act);
    case _ => QuietStepKeepsLog(w, s, step);
  }

  lemma StepKeepsHistory(w: World, s: State, step: Step)
    requires Sound(w) && Isolated(w, s) && TablesGood(s) && Faithful(w, s) && HistoryTrue(w, s) && Enabled(w, s, step)
    ensures HistoryTrue(w, Next(w, s, step))
  {
    hide Sound, Isolated, TablesGood, Faithful, LogTrue, EventsFromEnvelopes, Enabled, Next, Moved, WiresKept, Merge,
      Spec.Operate, ReqOf, KeyOf, AfterCommit;
    var s' := Next(w, s, step);
    StepMoves(w, s, step);
    WiresStay(w, s, step);
    StepLogs(w, s, step);
    StepKeepsLog(w, s, step);
    match step {
      case Commit(id, acknowledged) =>
        CommitUnfolds(w, s, id, acknowledged);
        CommitIsFromAnEnvelope(w, s, id);
      case _ =>
    }
    EventsStayFromEnvelopes(w, s, step, s');
  }
}
