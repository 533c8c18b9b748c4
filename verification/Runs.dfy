/** What holds over whole runs of the protocol, with or without the journal's UNIQUE key. */
module Runs {
  import opened Bytes
  import opened Wrappers
  import opened Tables
  import opened Claims
  import opened Ingest
  import opened Protocol
  import opened Consistency
  import opened Safety
  import opened History
  import Instruction
  import Isolation
  import KeyRing
  import Ledger
  import Receipts
  import Registry
  import Spec

  ghost predicate Safe(w: World, s: State) {
    && Isolated(w, s) && TablesGood(s) && WellHeld(s) && Faithful(w, s) && RepliesTrue(w, s) && HistoryTrue(w, s)
  }

  lemma InitialIsSafe(w: World, s: State)
    requires Initial(s)
    ensures Safe(w, s)
  {
    hide Isolation.Facts;
  }

  lemma StepIsSafe(w: World, s: State, step: Step)
    requires Sound(w) && Safe(w, s) && Enabled(w, s, step)
    ensures Safe(w, Next(w, s, step))
  {
    hide Isolated, TablesGood, WellHeld, Faithful, RepliesTrue, HistoryTrue, Sound, Enabled, Next,
      Instruction.WellFormed;
    forall i: nat | s.At(i).pc == Acquiring
      ensures Instruction.WellFormed(s.At(i).intent.instruction)
    {
      AcquiringReads(w, s, i);
    }
    StepKeepsIsolation(w, s, step);
    StepRefinesSpec(w, s, step);
    StepKeepsHolders(w, s, step);
    StepKeepsFaith(w, s, step);
    StepKeepsReplies(w, s, step);
    StepKeepsHistory(w, s, step);
  }

  lemma AcquiringReads(w: World, s: State, i: nat)
    requires Sound(w) && Faithful(w, s) && s.At(i).pc == Acquiring
    ensures Instruction.WellFormed(s.At(i).intent.instruction)
  {
    DeliveryReads(w, s, i);
  }

  lemma {:induction false} ReachableIsSafe(w: World, r: Run, n: nat)
    requires Sound(w) && IsRun(w, r)
    ensures Safe(w, r.state(n))
  {
    hide Safe, Enabled, Next, Sound, Initial;
    if n == 0 {
      InitialIsSafe(w, r.state(0));
    } else {
      ReachableIsSafe(w, r, n - 1);
      assert Follows(w, r, n - 1);
      StepIsSafe(w, r.state(n - 1), r.step(n - 1));
    }
  }

  /** A step of a run leaves a safe state, and what follows is where it leads. */
  lemma StepOfRun(w: World, r: Run, n: nat)
    requires Sound(w) && IsRun(w, r)
    ensures Safe(w, r.state(n)) && Enabled(w, r.state(n), r.step(n)) && r.After(n) == Next(w, r.state(n), r.step(n))
  {
    hide Safe, Enabled, Next, Sound, Initial;
    ReachableIsSafe(w, r, n);
    assert Follows(w, r, n);
  }

  /** Every run of interleaved statements is a run of the specification. */
  lemma RunsRefineTheSpecification(w: World, r: Run)
    requires Sound(w) && IsRun(w, r)
    ensures Spec.View(r.state(0).db).decisions == map[]
    ensures forall n: nat :: RefinesSpec(w, r.state(n), r.step(n), r.After(n))
    ensures forall n: nat :: Spec.Next(Spec.View(r.state(n).db), Spec.View(r.After(n).db))
  {
    hide Isolated, TablesGood, WellHeld, Faithful, RepliesTrue, HistoryTrue, Sound, Enabled, Next, Follows,
      Spec.Decisions, RefinesSpec, Spec.Next;
    forall n: nat
      ensures RefinesSpec(w, r.state(n), r.step(n), r.After(n))
      ensures Spec.Next(Spec.View(r.state(n).db), Spec.View(r.After(n).db))
    {
      StepOfRun(w, r, n);
      StepRefinesSpec(w, r.state(n), r.step(n));
      RefiningIsASpecStep(w, r.state(n), r.step(n), r.After(n));
    }
    NothingDecided();
  }

  lemma RefiningIsASpecStep(w: World, s: State, step: Step, s': State)
    requires RefinesSpec(w, s, step, s')
    ensures Spec.Next(Spec.View(s.db), Spec.View(s'.db))
  {
    hide Spec.DecidesOnce, Spec.Operates, Spec.View, ReqOf;
  }

  lemma NothingDecided()
    ensures Spec.Decisions(map[]) == map[]
  {}

  /** What is never taken back: decisions, keys of the service and deliveries. */
  ghost predicate Later(s: State, s': State) {
    DecisionsKept(s.db.claims, s'.db.claims) && KeyRing.Extends(s'.ring, s.ring) && WiresKept(s, s')
  }

  lemma StepIsLater(w: World, s: State, step: Step)
    requires Sound(w) && Safe(w, s) && Enabled(w, s, step)
    ensures Later(s, Next(w, s, step))
  {
    hide Isolated, TablesGood, WellHeld, Faithful, RepliesTrue, HistoryTrue, Sound, Enabled, Next, WiresKept,
      DecisionsKept, Moved;
    StepKeepsReplies(w, s, step);
    WiresStay(w, s, step);
    StepMoves(w, s, step);
  }

  /** A decision, once committed, is never changed; nor does a later state lose a key or a delivery. */
  lemma {:induction false} DecisionsAreKept(w: World, r: Run, n: nat, m: nat)
    requires Sound(w) && IsRun(w, r) && n <= m
    ensures Later(r.state(n), r.state(m))
    decreases m
  {
    hide Safe, Enabled, Next, Sound, IsRun;
    if n < m {
      DecisionsAreKept(w, r, n, m - 1);
      StepOfRun(w, r, m - 1);
      StepIsLater(w, r.state(m - 1), r.step(m - 1));
      KeyRing.ExtendsTransitive(r.state(m).ring, r.state(m - 1).ring, r.state(n).ring);
    }
  }

  // ---------------------------------------------------------------------------------------------
  // Exactly once
  // ---------------------------------------------------------------------------------------------

  /** A commit decides its own payment, which its delivery held undecided until then. */
  lemma CommitDecides(w: World, r: Run, n: nat, id: nat, acknowledged: bool)
    requires Sound(w) && IsRun(w, r) && r.step(n) == Commit(id, acknowledged)
    ensures HeldBy(r.state(n).db.claims, KeyIn(r.state(n).At(id)), HolderIn(r.state(n).At(id)))
    ensures DecidedIn(r.After(n).db.claims, KeyIn(r.state(n).At(id)))
  {
    hide Isolated, TablesGood, WellHeld, Faithful, RepliesTrue, HistoryTrue, Sound, IsRun, Enabled, Next, KeyIn, ReqOf,
      HolderIn, Merge, AfterCommit;
    StepOfRun(w, r, n);
    CommitUnfolds(w, r.state(n), id, acknowledged);
    CommitMovesClaims(w, r.state(n), id, acknowledged);
  }

  /** No run commits two decisions for one payment, even without the journal's UNIQUE key. */
  lemma NoPaymentIsDecidedTwice(w: World, r: Run, n: nat, i: nat, a: bool, m: nat, j: nat, b: bool)
    requires Sound(w) && IsRun(w, r) && n < m && r.step(n) == Commit(i, a) && r.step(m) == Commit(j, b)
    ensures KeyIn(r.state(n).At(i)) != KeyIn(r.state(m).At(j))
  {
    hide IsRun, Sound, KeyIn, WiresKept;
    CommitDecides(w, r, n, i, a);
    CommitDecides(w, r, m, j, b);
    DecisionsAreKept(w, r, n + 1, m);
  }

  /** The claim of this delivery's payment is not, or no longer, in its hands. */
  ghost predicate ShutOut(s: State, id: nat) {
    && s.At(id).holder.Some? && HolderIn(s.At(id)) in s.holders
    && !HeldBy(s.db.claims, KeyIn(s.At(id)), HolderIn(s.At(id)))
  }

  lemma MovesKeepOut(w: World, s: State, step: Step, s': State, out: nat)
    requires Moves(w, s, step, s') && ClaimsMove(s, step, s') && WellHeld(s) && ShutOut(s, out)
    ensures ShutOut(s', out) && !(step.Commit? && step.id == out)
  {
    hide KeyOf, Takeable, Replay;
  }

  /** A delivery whose claim was taken over, released or decided never commits anything again. */
  lemma {:induction false} StaleHolderNeverCommits(w: World, r: Run, n: nat, m: nat, out: nat, acknowledged: bool)
    requires Sound(w) && IsRun(w, r) && n <= m && ShutOut(r.state(n), out)
    ensures ShutOut(r.state(m), out) && r.step(m) != Commit(out, acknowledged)
    decreases m
  {
    hide Isolated, TablesGood, WellHeld, Faithful, RepliesTrue, HistoryTrue, Sound, Enabled, Next, Moves, ClaimsMove,
      FingerprintsMove, IsRun, ShutOut;
    if n < m {
      StaleHolderNeverCommits(w, r, n, m - 1, out, acknowledged);
      StepOfRun(w, r, m - 1);
      StepMoves(w, r.state(m - 1), r.step(m - 1));
      StepMovesClaims(w, r.state(m - 1), r.step(m - 1));
      MovesKeepOut(w, r.state(m - 1), r.step(m - 1), r.After(m - 1), out);
    }
    StepOfRun(w, r, m);
    StepMoves(w, r.state(m), r.step(m));
    StepMovesClaims(w, r.state(m), r.step(m));
    MovesKeepOut(w, r.state(m), r.step(m), r.After(m), out);
  }

  // ---------------------------------------------------------------------------------------------
  // Leases
  // ---------------------------------------------------------------------------------------------

  /** This step takes the claim on this delivery's payment. */
  ghost predicate TakesClaim(r: Run, n: nat, id: nat, holder: Holder, at: int) {
    r.step(n) == TryAcquire(id, holder, at) && r.After(n).At(id).holder == Some(holder)
  }

  /** This step asks for the claim on the payment, at a later time than that. */
  predicate AsksAfter(s: State, step: Step, key: Key, time: int) {
    match step
    case TryAcquire(id, _, at) => KeyIn(s.At(id)) == key && at > time
    case _ => false
  }

  /** Between these steps the delivery does not release the claim, and nobody asks for it later than at this time. */
  ghost predicate Unchallenged(r: Run, n: nat, m: nat, id: nat, key: Key, time: int) {
    forall l: nat :: n < l < m ==> r.step(l) != Release(id, true) && !AsksAfter(r.state(l), r.step(l), key, time)
  }

  /** This holder still has the claim until then, or has decided it. */
  predicate HasClaim(claims: map<Key, Claim>, key: Key, holder: Holder, until: int) {
    && key in claims && claims[key].holder == holder
    && (IsDecided(claims[key]) || claims[key].lease == Some(until))
  }

  lemma MoveRespectsTheLease(w: World, s: State, step: Step, s': State, id: nat, holder: Holder, until: int)
    requires Isolated(w, s) && WellHeld(s) && Enabled(w, s, step) && Moves(w, s, step, s') && ClaimsMove(s, step, s')
    requires s.At(id).holder == Some(holder) && HasClaim(s.db.claims, KeyIn(s.At(id)), holder, until)
    requires step != Release(id, true) && !AsksAfter(s, step, KeyIn(s.At(id)), until)
    ensures s'.At(id).holder == Some(holder) && KeyIn(s'.At(id)) == KeyIn(s.At(id))
    ensures HasClaim(s'.db.claims, KeyIn(s.At(id)), holder, until)
  {
    hide Isolated, Moves, KeyIn, Enabled;
    MovesKeepIds(w, s, step, s', id, holder);
    match step
    case Release(other, _) => TxIsOk(w, s, other);
    case _ =>
  }

  lemma MovesKeepIds(w: World, s: State, step: Step, s': State, id: nat, holder: Holder)
    requires Enabled(w, s, step) && Moves(w, s, step, s') && WellHeld(s) && s.At(id).holder == Some(holder)
    ensures s'.At(id).holder == Some(holder) && KeyIn(s'.At(id)) == KeyIn(s.At(id))
    ensures forall other :: step == Release(other, true) ==> s.At(other).pc.Releasing?
  {
    hide KeyOf, Takeable, Replay, Wants, Free, NoneLocked, OperatorLocks;
  }

  /**
   * A claim that a delivery took at some time stays with it, undecided or decided by it, for the thirty seconds
   * that follow: until it releases the claim itself or another delivery asks at a later time than that.
   */
  lemma {:induction false} LeaseIsRespected(w: World, r: Run, n: nat, m: nat, id: nat, holder: Holder, at: int)
    requires Sound(w) && IsRun(w, r) && n < m && TakesClaim(r, n, id, holder, at)
    requires Unchallenged(r, n, m, id, KeyIn(r.state(n).At(id)), at + 30_000)
    ensures r.state(m).At(id).holder == Some(holder) && KeyIn(r.state(m).At(id)) == KeyIn(r.state(n).At(id))
    ensures HasClaim(r.state(m).db.claims, KeyIn(r.state(n).At(id)), holder, at + 30_000)
    decreases m
  {
    hide Isolated, TablesGood, WellHeld, Faithful, RepliesTrue, HistoryTrue, Sound, Enabled, Next, Moves, ClaimsMove,
      FingerprintsMove, IsRun, TakesClaim, HasClaim, AsksAfter, KeyIn;
    if m == n + 1 {
      ClaimIsTaken(w, r, n, id, holder, at);
    } else {
      LeaseIsRespected(w, r, n, m - 1, id, holder, at);
      StepOfRun(w, r, m - 1);
      StepMoves(w, r.state(m - 1), r.step(m - 1));
      StepMovesClaims(w, r.state(m - 1), r.step(m - 1));
      MoveRespectsTheLease(w, r.state(m - 1), r.step(m - 1), r.After(m - 1), id, holder, at + 30_000);
    }
  }

  /**
   * While the claim is so held and undecided, another delivery of the payment gets it exactly if it asks later than
   * that, and one that has been turned away is told that the claim is held and to keep its copy.
   */
  lemma OnlyALaterDeliveryTakesOver(w: World, r: Run, n: nat, m: nat, id: nat, holder: Holder, at: int, other: nat)
    requires Sound(w) && IsRun(w, r) && n < m && TakesClaim(r, n, id, holder, at)
    requires Unchallenged(r, n, m, id, KeyIn(r.state(n).At(id)), at + 30_000)
    requires KeyIn(r.state(m).At(other)) == KeyIn(r.state(n).At(id))
    requires !DecidedIn(r.state(m).db.claims, KeyIn(r.state(n).At(id)))
    ensures match r.step(m)
            case TryAcquire(mover, newHolder, time) =>
              mover == other ==>
                && (r.After(m).At(other).holder == Some(newHolder) <==> time > at + 30_000)
                && (time <= at + 30_000 ==>
                      r.After(m).At(other).pc == Finding && r.After(m).db.claims == r.state(m).db.claims)
            case FindClaim(mover) =>
              mover == other ==>
                r.After(m).At(other).pc == Done(Reply(
                  ReplyInProgress, ClaimHeld, Plain("another delivery is deciding this payment"),
                  Some(KeyIn(r.state(n).At(id))), None, false, true))
            case _ => true
  {
    hide Isolated, TablesGood, WellHeld, Faithful, RepliesTrue, HistoryTrue, Sound, Enabled, Next, Moves, ClaimsMove,
      FingerprintsMove, IsRun, TakesClaim, HasClaim, AsksAfter, KeyIn;
    LeaseIsRespected(w, r, n, m, id, holder, at);
    StepOfRun(w, r, m);
    StepMoves(w, r.state(m), r.step(m));
    StepMovesClaims(w, r.state(m), r.step(m));
    match r.step(m)
    case TryAcquire(mover, newHolder, time) =>
      if mover == other {
        LeaseDecides(w, r.state(m), r.After(m), other, newHolder, time, holder, at + 30_000);
      }
    case FindClaim(mover) =>
      if mover == other {
        ToldToKeep(w, r.state(m), other, holder, at + 30_000);
      }
    case _ =>
  }

  lemma LeaseDecides(w: World, s: State, s': State, id: nat, newHolder: Holder, time: int, holder: Holder, until: int)
    requires Moves(w, s, TryAcquire(id, newHolder, time), s') && ClaimsMove(s, TryAcquire(id, newHolder, time), s')
    requires WellHeld(s) && HasClaim(s.db.claims, KeyIn(s.At(id)), holder, until)
    requires Isolated(w, s) && TablesGood(s) && !DecidedIn(s.db.claims, KeyIn(s.At(id)))
    ensures s'.At(id).holder == Some(newHolder) <==> time > until
    ensures time <= until ==> s'.At(id).pc == Finding && s'.db.claims == s.db.claims
  {
    hide KeyOf, Isolated, Ledger.BooksBalance;
  }

  lemma ToldToKeep(w: World, s: State, id: nat, holder: Holder, until: int)
    requires HasClaim(s.db.claims, KeyIn(s.At(id)), holder, until) && !DecidedIn(s.db.claims, KeyIn(s.At(id)))
    ensures Next(w, s, FindClaim(id)).At(id).pc == Done(Reply(ReplyInProgress, ClaimHeld,
              Plain("another delivery is deciding this payment"), Some(KeyIn(s.At(id))), None, false, true))
  {
    hide KeyOf;
  }

  lemma ClaimIsTaken(w: World, r: Run, n: nat, id: nat, holder: Holder, at: int)
    requires Sound(w) && IsRun(w, r) && TakesClaim(r, n, id, holder, at)
    ensures r.After(n).At(id).holder == Some(holder) && KeyIn(r.After(n).At(id)) == KeyIn(r.state(n).At(id))
    ensures HasClaim(r.After(n).db.claims, KeyIn(r.state(n).At(id)), holder, at + 30_000)
  {
    hide Isolated, TablesGood, WellHeld, Faithful, RepliesTrue, HistoryTrue, Sound, Enabled, Next, Moves, ClaimsMove,
      FingerprintsMove, IsRun, HasClaim, KeyIn;
    StepOfRun(w, r, n);
    StepMoves(w, r.state(n), r.step(n));
    StepMovesClaims(w, r.state(n), r.step(n));
    TakingBeginsTheLease(w, r.state(n), r.After(n), id, holder, at);
  }

  lemma TakingBeginsTheLease(w: World, s: State, s': State, id: nat, holder: Holder, at: int)
    requires Moves(w, s, TryAcquire(id, holder, at), s') && ClaimsMove(s, TryAcquire(id, holder, at), s')
    requires WellHeld(s) && s'.At(id).holder == Some(holder)
    ensures KeyIn(s'.At(id)) == KeyIn(s.At(id)) && HasClaim(s'.db.claims, KeyIn(s.At(id)), holder, at + 30_000)
  {
    hide KeyOf;
  }

  // ---------------------------------------------------------------------------------------------
  // Replies
  // ---------------------------------------------------------------------------------------------

  /** The reply that makes a verdict known. */
  function Announcement(key: Key, verdict: Verdict): Reply {
    match verdict
    case Settle(entry) => Reply(ReplySettled, SettledCode, Blank, Some(key), Some(entry), false, false)
    case Refuse(code, detail) => Reply(ReplyRejected, code, detail, Some(key), None, false, false)
  }

  /**
   * What the last steps of a delivery answer, and leave of its claim. An acknowledged commit announces its verdict;
   * after any failure the bridge is told to try again, and a release that is performed frees the claim.
   */
  lemma LastStepsAnswer(w: World, r: Run, n: nat, id: nat)
    requires Sound(w) && IsRun(w, r)
    ensures var d, after, key := r.state(n).At(id), r.After(n).At(id), KeyIn(r.state(n).At(id));
            match r.step(n)
            case Commit(mover, acknowledged) =>
              mover == id ==>
                after.pc == if acknowledged then Done(Announcement(key, d.tx.verdict)) else Releasing(DatabaseError)
            case Fail(mover) => mover == id ==> after.pc == Releasing(DatabaseError)
            case Release(mover, performed) =>
              mover == id ==>
                && d.pc.Releasing?
                && after.pc == Done(Reply(ReplyTransient, RetryLater, d.pc.error, Some(key), None, false, true))
                && (performed && HeldBy(r.state(n).db.claims, key, HolderIn(d)) ==> key !in r.After(n).db.claims)
            case _ => true
  {
    hide Isolated, TablesGood, WellHeld, Faithful, RepliesTrue, HistoryTrue, Sound, IsRun, KeyOf, Wants, Free, Merge,
      Execute, Operated;
    StepOfRun(w, r, n);
  }

  /** The decision this delivery was answered with, if it was. */
  function Answer(s: State, id: nat): Option<Reply> {
    match s.At(id).pc
    case Done(reply) => if Announces(reply) then Some(reply) else None
    case _ => None
  }

  lemma AnswerIsRecorded(w: World, r: Run, n: nat, id: nat, reply: Reply)
    requires Sound(w) && IsRun(w, r) && r.state(n).At(id).pc == Done(reply)
    ensures IsTrue(w, r.state(n).ring, r.state(n).db.claims, r.state(n).At(id), reply)
  {
    hide Isolated, TablesGood, WellHeld, Faithful, HistoryTrue, Sound, IsRun, IsTrue;
    ReachableIsSafe(w, r, n);
    assert Truthful(w, r.state(n).ring, r.state(n).db.claims, r.state(n).At(id));
  }

  /**
   * Whenever two deliveries were answered with a decision on one payment, the answers agree, at most
   * one of them is the original, and the payment is the one inside both envelopes.
   */
  lemma RepliesAgree(w: World, r: Run, n: nat, a: nat, p: Reply, m: nat, b: nat, q: Reply)
    requires Sound(w) && IsRun(w, r) && n <= m
    requires Answer(r.state(n), a) == Some(p) && Answer(r.state(m), b) == Some(q) && p.key == q.key
    ensures p.(isReplay := true) == q.(isReplay := true)
    ensures !p.isReplay && !q.isReplay ==> r.state(n).At(a).holder == r.state(m).At(b).holder
    ensures q.key.Some? && Inside(w, r.state(m).At(b).wire, r.state(m).ring) == q.key
  {
    hide IsRun, Sound, WiresKept, Inside, Replay;
    AnswerIsRecorded(w, r, n, a, p);
    AnswerIsRecorded(w, r, m, b, q);
    DecisionsAreKept(w, r, n, m);
  }

  /** In one state, two deliveries answered with the original decision on one payment are one delivery. */
  lemma OneOriginalReply(w: World, r: Run, n: nat, a: nat, p: Reply, b: nat, q: Reply)
    requires Sound(w) && IsRun(w, r)
    requires Answer(r.state(n), a) == Some(p) && Answer(r.state(n), b) == Some(q) && p.key == q.key
    requires !p.isReplay && !q.isReplay
    ensures a == b
  {
    hide IsRun, Sound, Inside, Replay, Isolated, TablesGood, Faithful, RepliesTrue, HistoryTrue;
    ReachableIsSafe(w, r, n);
    AnswerIsRecorded(w, r, n, a, p);
    AnswerIsRecorded(w, r, n, b, q);
  }

  /**
   * The fast path agrees with the slow one: a fingerprint that hits a decision names the payment
   * inside the envelope, whatever keys have been added since it was recorded.
   */
  lemma FastPathAgrees(w: World, r: Run, n: nat, wire: bytes, key: Key)
    requires Sound(w) && IsRun(w, r) && KnownDecision(r.state(n).db, w.fingerprint(wire)) == Some(key)
    ensures Inside(w, wire, r.state(n).ring) == Some(key)
    ensures WhyNot(r.state(n).db.claims, key) == AlreadyDecided(Row(r.state(n).db.claims, key))
  {
    hide IsRun, Sound, Inside, Isolated, TablesGood, WellHeld, RepliesTrue, HistoryTrue, Faithful;
    ReachableIsSafe(w, r, n);
    FaithfulFingerprints(w, r.state(n));
    FingerprintNamesThePayment(w, r.state(n).ring, r.state(n).db.fingerprints, wire);
  }

  /**
   * A bridge is told to drop its copy exactly when the reply announces a decision, which is then on
   * record for the payment inside, or the bytes do not open under the ring of the process it asked.
   */
  lemma DroppedExactlyWhenDecidedOrUnreadable(w: World, r: Run, n: nat, id: nat, reply: Reply)
    requires Sound(w) && IsRun(w, r) && r.state(n).At(id).pc == Done(reply)
    ensures !reply.bridgeShouldRetain <==>
            Announces(reply) || w.open(r.state(n).At(id).wire, r.state(n).At(id).ring).Unopened?
    ensures Announces(reply) ==>
              exists key ::
                && reply.key == Inside(w, r.state(n).At(id).wire, r.state(n).ring) == Some(key)
                && DecidedIn(r.state(n).db.claims, key)
  {
    hide IsRun, Sound, Inside;
    AnswerIsRecorded(w, r, n, id, reply);
    assert Announces(reply) ==> reply.key == Some(reply.key.value);
  }

  // ---------------------------------------------------------------------------------------------
  // Money, receipts, sequence numbers and allowances
  // ---------------------------------------------------------------------------------------------

  lemma TablesOfRun(w: World, r: Run, n: nat)
    requires Sound(w) && IsRun(w, r)
    ensures TablesGood(r.state(n)) && LogTrue(r.state(n).log, r.state(n).db)
    ensures EventsFromEnvelopes(w, r.state(n))
  {
    hide IsRun, Sound, Isolated, TablesGood, WellHeld, RepliesTrue, Faithful, LogTrue, EventsFromEnvelopes;
    ReachableIsSafe(w, r, n);
  }

  /** checkInvariants holds in every reachable state. */
  lemma LedgerAlwaysBalances(w: World, r: Run, n: nat)
    requires Sound(w) && IsRun(w, r)
    ensures Ledger.CheckInvariants(r.state(n).db) == Ledger.Report(true, 0, {})
    ensures forall v :: v in r.state(n).db.accounts && v != HOUSE_VPA ==> r.state(n).db.accounts[v].balance >= 0
    ensures forall e :: e in r.state(n).db.entries ==> Ledger.EntrySum(r.state(n).db.postings, e) == 0
  {
    hide IsRun, Sound, ClaimsMatchEntries, ReceiptsMatchClaims, SequencesDecided, DevicesPaired, LogTrue,
      EventsFromEnvelopes;
    TablesOfRun(w, r, n);
    Ledger.BalancedBooksPassTheCheck(r.state(n).db);
    OneHouse(w, r, n);
  }

  /** The house account is the one that the migrations made. */
  predicate OnlyHouse(accounts: map<Vpa, Account>) {
    HOUSE_VPA in accounts && forall v :: v in accounts ==> (accounts[v].kind == House <==> v == HOUSE_VPA)
  }

  lemma SpecKeepsKinds(a: Spec.State, b: Spec.State)
    requires Spec.Next(a, b) && OnlyHouse(a.accounts)
    ensures OnlyHouse(b.accounts)
  {
    hide Ledger.Overdrawn;
  }

  lemma {:induction false} OneHouse(w: World, r: Run, n: nat)
    requires Sound(w) && IsRun(w, r)
    ensures OnlyHouse(r.state(n).db.accounts)
  {
    hide Sound, Follows, OnlyHouse, Spec.Next;
    if n == 0 {
      HouseAtFirst(r.state(0));
    } else {
      OneHouse(w, r, n - 1);
      SpecStepOfRun(w, r, n - 1);
      SpecKeepsKinds(Spec.View(r.state(n - 1).db), Spec.View(r.state(n).db));
    }
  }

  lemma HouseAtFirst(s: State)
    requires Initial(s)
    ensures OnlyHouse(s.db.accounts)
  {}

  lemma SpecStepOfRun(w: World, r: Run, n: nat)
    requires Sound(w) && IsRun(w, r)
    ensures Spec.Next(Spec.View(r.state(n).db), Spec.View(r.state(n + 1).db))
  {
    hide Sound, IsRun, Spec.Next, Spec.Decisions, RefinesSpec;
    RunsRefineTheSpecification(w, r);
    assert r.After(n) == r.state(n + 1);
  }

  /** Claim, journal entry and receipt always tell the same story. */
  lemma RecordsAlwaysAgree(w: World, r: Run, n: nat, k: Key)
    requires Sound(w) && IsRun(w, r)
    ensures var db := r.state(n).db;
            && (k in db.receipts <==> DecidedIn(db.claims, k))
            && (Row(db.claims, k).state == Settled <==>
                  exists e: nat :: Lookup(db.entries, e) == Some(Entry(k, PaymentEntry)))
            && (forall e: nat :: Lookup(db.entries, e) == Some(Entry(k, PaymentEntry)) ==>
                  && Row(db.claims, k).entry == Some(e)
                  && Lookup(db.receipts, k) == Some(Receipt(SettledOutcome, None, Blank, Some(e))))
            && (Row(db.claims, k).state == Rejected ==>
                  exists detail ::
                    && Row(db.claims, k).reason == Some(detail)
                    && Lookup(db.receipts, k) == Some(Receipt(RejectedOutcome, Row(db.claims, k).code, detail, None)))
  {
    hide IsRun, Sound, Ledger.BooksBalance, SequencesDecided, DevicesPaired, LogTrue, EventsFromEnvelopes,
      Instruction.IsTopUpKey;
    TablesOfRun(w, r, n);
    var db := r.state(n).db;
    if Row(db.claims, k).state == Settled {
      assert Lookup(db.entries, db.claims[k].entry.value) == Some(Entry(k, PaymentEntry));
    } else if Row(db.claims, k).state == Rejected {
      assert Row(db.claims, k).reason == Some(db.claims[k].reason.value);
    }
  }

  lemma CommitOfRun(w: World, r: Run, n: nat, id: nat, acknowledged: bool)
    requires Sound(w) && IsRun(w, r) && r.step(n) == Commit(id, acknowledged)
    ensures r.state(n).At(id).pc == Committing && r.After(n).db == Merge(r.state(n).db, r.state(n).At(id).tx.pending)
    ensures Isolated(w, r.state(n)) && TablesGood(r.state(n)) && Safe(w, r.state(n))
    ensures Spec.DecidesOnce(Spec.View(r.state(n).db), Spec.View(r.After(n).db), ReqOf(w, r.state(n).At(id)),
                             r.state(n).At(id).tx.verdict)
  {
    hide IsRun, Sound, Isolated, TablesGood, WellHeld, RepliesTrue, Faithful, HistoryTrue, Spec.DecidesOnce, Spec.View,
      ReqOf, Decide, Consistent, Merge, AfterCommit, Enabled, Next;
    StepOfRun(w, r, n);
    CommitUnfolds(w, r.state(n), id, acknowledged);
    CommitIsOneStep(w, r.state(n), id);
  }

  /** A device that is registered and not revoked. */
  predicate IsActive(db: Database, device: DeviceId) {
    device in db.devices && db.devices[device].state == Active
  }

  /**
   * A settling commit moves the payment's amount from payer to payee, covered unless the payer is the house, in
   * one entry of two postings, and takes it off the allowance of the device that signed.
   */
  lemma SettlementPays(w: World, r: Run, n: nat, id: nat, acknowledged: bool, entry: nat)
    requires Sound(w) && IsRun(w, r) && r.step(n) == Commit(id, acknowledged)
    requires r.state(n).At(id).tx.verdict == Settle(entry)
    ensures Pays(w, r.state(n).db, r.state(n).At(id).intent, entry, r.After(n).db)
  {
    hide IsRun, Sound, Safe, Isolated, TablesGood, Spec.Decisions, Merge, Instruction.IsUuidV4, Instruction.IsVpa;
    CommitOfRun(w, r, n, id, acknowledged);
    CommitterIsWellFormed(w, r.state(n), id);
  }

  lemma CommitterIsWellFormed(w: World, s: State, id: nat)
    requires Isolated(w, s) && s.At(id).pc == Committing
    ensures Instruction.WellFormed(s.At(id).intent.instruction)
  {
    hide Isolated, Instruction.WellFormed, Isolation.Facts;
    TxIsOk(w, s, id);
  }

  /** The tables before and after the payment that this entry books. */
  predicate Pays(w: World, a: Database, intent: Intent, entry: nat, b: Database) {
    var p, device := intent.instruction, w.deviceIdOf(intent.publicKey);
    var key := p.senderVpa + "/" + p.nonce;
    && p.senderVpa in a.accounts && p.receiverVpa in a.accounts && p.senderVpa != p.receiverVpa
    && (a.accounts[p.senderVpa].kind == House || a.accounts[p.senderVpa].balance >= p.amountPaise > 0)
    && b.accounts == a.accounts[
         p.senderVpa := a.accounts[p.senderVpa].(balance := a.accounts[p.senderVpa].balance - p.amountPaise)][
         p.receiverVpa := a.accounts[p.receiverVpa].(balance := a.accounts[p.receiverVpa].balance + p.amountPaise)]
    && entry !in a.entries && b.entries == a.entries[entry := Entry(key, PaymentEntry)]
    && b.postings == a.postings
         + [Posting(entry, p.senderVpa, -p.amountPaise), Posting(entry, p.receiverVpa, p.amountPaise)]
    && device in a.envelopes && a.envelopes[device].allowance >= p.amountPaise
    && b.envelopes == a.envelopes[device :=
         OfflineEnvelope(a.envelopes[device].allowance - p.amountPaise, a.envelopes[device].cap)]
    && SequenceNo(device, p.deviceSequence) !in a.sequences
    && b.sequences == a.sequences[SequenceNo(device, p.deviceSequence) := key]
    && b.devices == a.devices
  }

  /** A commit that refuses moves no money and spends no allowance; sequence reuse revokes the device with it. */
  lemma RefusalMovesNothing(w: World, r: Run, n: nat, id: nat, acknowledged: bool, code: Code, detail: Detail)
    requires Sound(w) && IsRun(w, r) && r.step(n) == Commit(id, acknowledged)
    requires r.state(n).At(id).tx.verdict == Refuse(code, detail)
    ensures var a, b, device := r.state(n).db, r.After(n).db, ReqOf(w, r.state(n).At(id)).device;
            && b.accounts == a.accounts && b.entries == a.entries && b.postings == a.postings
            && b.envelopes == a.envelopes
            && (code == SequenceReuse ==> device in b.devices && !IsActive(b, device))
  {
    hide IsRun, Sound, Safe, Isolated, TablesGood, Spec.Decisions, Ledger.Paid, Merge, KeyOf;
    CommitOfRun(w, r, n, id, acknowledged);
  }

  /** A committing transaction wrote its own sequence number or was refused: it never saw itself there. */
  lemma CommitsNeverSawThemselves(w: World, r: Run, n: nat, id: nat, acknowledged: bool)
    requires Sound(w) && IsRun(w, r) && r.step(n) == Commit(id, acknowledged)
    ensures var req := ReqOf(w, r.state(n).At(id));
            Registry.RecordSequence(r.state(n).db.sequences, SequenceOf(req), req.key).1
              != Registry.AlreadySeenSamePayment
  {
    hide IsRun, Sound, Safe, Isolated, Consistent, Spec.DecidesOnce, Spec.View, Merge, Isolation.Facts, LocksInRange,
      Instruction.WellFormed;
    CommitOfRun(w, r, n, id, acknowledged);
    CommitDecides(w, r, n, id, acknowledged);
    TxIsOk(w, r.state(n), id);
    UndecidedLeavesNoTrace(r.state(n).db, ReqOf(w, r.state(n).At(id)));
  }

  /** Every logged decision is about the device and the payment its envelope names. */
  lemma DecisionsNameTheirDevice(w: World, r: Run, n: nat, id: nat, req: Request, verdict: Verdict)
    requires Sound(w) && IsRun(w, r) && Decided(id, req, verdict) in r.state(n).log
    ensures req.device == w.deviceIdOf(req.intent.publicKey) && req.key == KeyOf(req.intent)
    ensures w.open(r.state(n).At(id).wire, r.state(n).ring) == Opened(req.intent)
  {
    hide IsRun, Sound, TablesGood, LogTrue, KeyOf;
    TablesOfRun(w, r, n);
    var i :| 0 <= i < |r.state(n).log| && r.state(n).log[i] == Decided(id, req, verdict);
    assert FromEnvelope(w, r.state(n), r.state(n).log[i]);
  }

  /** Of all the payments a device signs with one sequence number, at most one is ever settled. */
  lemma OneSettlementPerSequenceNumber(w: World, r: Run, n: nat, i: nat, j: nat)
    requires Sound(w) && IsRun(w, r) && i < j < |r.state(n).log|
    requires r.state(n).log[i].Decided? && r.state(n).log[i].verdict.Settle?
    requires r.state(n).log[j].Decided? && r.state(n).log[j].verdict.Settle?
    ensures SequenceOf(r.state(n).log[i].req) != SequenceOf(r.state(n).log[j].req)
  {
    hide IsRun, Sound, TablesGood, EventsFromEnvelopes, AllowancesConserved;
    TablesOfRun(w, r, n);
  }

  /**
   * What is left of a device's allowance and what it has spent since it was last registered make up
   * what it was granted, and it has never spent more.
   */
  lemma AllowanceIsConserved(w: World, r: Run, n: nat, device: DeviceId, limits: OfflineEnvelope)
    requires Sound(w) && IsRun(w, r) && Lookup(r.state(n).db.envelopes, device) == Some(limits)
    ensures limits.allowance + Spent(r.state(n).log, device) == Granted(r.state(n).log, device)
    ensures 0 <= limits.allowance && Spent(r.state(n).log, device) <= Granted(r.state(n).log, device)
  {
    hide IsRun, Sound, EventsFromEnvelopes, EventsMatchClaims, EventsMatchSequences, Ledger.BooksBalance,
      ClaimsMatchEntries, ReceiptsMatchClaims, SequencesDecided, Spent, Granted;
    TablesOfRun(w, r, n);
  }

  /**
   * From any reachable tables, one uninterrupted delivery to a process that can open the envelope decides
   * the payment unless a lease is running.
   */
  lemma NothingIsStranded(w: World, r: Run, n: nat, d: Delivery, intent: Intent)
    requires Sound(w) && IsRun(w, r)
    requires KeyRing.Extends(r.state(n).ring, d.ring) && w.open(d.wire, d.ring) == Opened(intent)
    ensures var (db', reply) := Deliver(w, r.state(n).db, d, r.state(n).nextEntry, Acknowledged);
            DecidedUnlessHeld(r.state(n).db.claims, d.dbNow, KeyOf(intent), db'.claims, reply)
  {
    hide IsRun, Sound, LogTrue, EventsFromEnvelopes, Consistent, Instruction.WellFormed, Settlement, KeyOf;
    var s := r.state(n);
    ReadingIsStable(w, d.ring, s.ring, d.wire);
    TablesOfRun(w, r, n);
    match KnownDecision(s.db, w.fingerprint(d.wire))
    case Some(key) => FastPathAgrees(w, r, n, d.wire, key);
    case None =>
      hide Deliver, DecidedUnlessHeld;
      NoPaymentIsStranded(w, s.db, d, intent, s.nextEntry);
  }

  // ---------------------------------------------------------------------------------------------
  // Devices
  // ---------------------------------------------------------------------------------------------

  /** Something that has been delivered opens to this intent, signed by this device. */
  ghost predicate Delivered(w: World, s: State, device: DeviceId, intent: Intent) {
    && w.deviceIdOf(intent.publicKey) == device
    && exists i :: i in s.deliveries && w.open(s.At(i).wire, s.ring) == Opened(intent)
  }

  /** Whatever has been delivered from this device under one sequence number is one payment. */
  ghost predicate Honest(w: World, s: State, device: DeviceId) {
    forall a, b ::
      && Delivered(w, s, device, a) && Delivered(w, s, device, b)
      && a.instruction.deviceSequence == b.instruction.deviceSequence ==>
        KeyOf(a) == KeyOf(b)
  }

  /** An honest device's commit finds its sequence number unused, or used by the same payment. */
  lemma HonestSequence(w: World, s: State, id: nat)
    requires Sound(w) && Faithful(w, s) && HistoryTrue(w, s) && s.At(id).pc == Committing
    requires Honest(w, s, ReqOf(w, s.At(id)).device)
    ensures var q := SequenceOf(ReqOf(w, s.At(id)));
            q in s.db.sequences ==> s.db.sequences[q] == KeyIn(s.At(id))
  {
    DeliveryReads(w, s, id);
    hide Sound, Faithful, KeyOf, Instruction.WellFormed, EventsMatchClaims, AllowancesConserved, Inside;
    var d := s.At(id);
    var q := SequenceOf(ReqOf(w, d));
    if q in s.db.sequences {
      var n: nat :| UsesAt(s.log, n, q, s.db.sequences[q]);
      assert FromEnvelope(w, s, s.log[n]);
      assert Delivered(w, s, q.device, s.log[n].req.intent) && Delivered(w, s, q.device, d.intent);
    }
  }

  lemma DecisionOnActiveDevice(a: Spec.State, b: Spec.State, req: Request, verdict: Verdict, device: DeviceId)
    requires Spec.DecidesOnce(a, b, req, verdict) && device in a.devices
    requires device == req.device && SequenceOf(req) in a.used ==> a.used[SequenceOf(req)] == req.key
    ensures device in b.devices && b.devices[device] == a.devices[device]
  {
    hide Ledger.Paid, Receipts.ReceiptFor;
  }

  lemma CommitKeepsHonestDevice(w: World, r: Run, n: nat, id: nat, acknowledged: bool, device: DeviceId)
    requires Sound(w) && IsRun(w, r) && r.step(n) == Commit(id, acknowledged)
    requires Honest(w, r.state(n), device) && IsActive(r.state(n).db, device)
    ensures IsActive(r.After(n).db, device)
  {
    hide IsRun, Sound, Isolated, TablesGood, WellHeld, RepliesTrue, Faithful, HistoryTrue, Spec.DecidesOnce, Merge,
      Honest, Spec.Decisions;
    var s := r.state(n);
    CommitOfRun(w, r, n, id, acknowledged);
    if ReqOf(w, s.At(id)).device == device {
      HonestSequence(w, s, id);
    }
    DecisionOnActiveDevice(Spec.View(s.db), Spec.View(r.After(n).db), ReqOf(w, s.At(id)), s.At(id).tx.verdict, device);
  }

  lemma OperatorLeavesActive(db: Database, unique: bool, act: Spec.OperatorAct, entry: nat, db': Database,
                             device: DeviceId)
    requires Spec.Operate(db, unique, act, entry) == Some(db') && IsActive(db, device)
    requires !(act.RevokeDevice? && act.device == device)
    ensures IsActive(db', device)
  {
    hide Ledger.Precheck, Ledger.MoveAll, Instruction.TopUpKey;
  }

  /** However its payments are re-sealed, lost or reordered, settlement never revokes an honest device. */
  lemma HonestDeviceIsNeverRevoked(w: World, r: Run, n: nat, device: DeviceId)
    requires Sound(w) && IsRun(w, r) && Honest(w, r.state(n), device) && IsActive(r.state(n).db, device)
    requires forall reason :: r.step(n) != Operate(Spec.RevokeDevice(device, reason))
    ensures IsActive(r.After(n).db, device)
  {
    hide IsRun, Sound, Isolated, WellHeld, RepliesTrue, Faithful, HistoryTrue, Honest, TablesGood, Enabled, Next,
      Spec.Operate, SameDecisions, Spec.Decisions;
    var s := r.state(n);
    StepOfRun(w, r, n);
    match r.step(n)
    case Commit(id, acknowledged) => CommitKeepsHonestDevice(w, r, n, id, acknowledged, device);
    case Operate(act) =>
      ActUnfolds(w, s, act);
      if Spec.Operate(s.db, w.unique, act, s.nextEntry).Some? {
        OperatorLeavesActive(s.db, w.unique, act, s.nextEntry, r.After(n).db, device);
      }
    case _ =>
      QuietStepRefines(w, s, r.step(n));
      assert Spec.View(r.After(n).db).devices == Spec.View(s.db).devices;
  }
}
