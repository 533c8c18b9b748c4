/** Where the mesh meets the service: what bridges upload, and what they may forget. */
module Flush {
  import opened Bytes
  import opened Wrappers
  import opened Tables
  import opened Claims
  import opened Ingest
  import opened Consistency
  import opened Mesh
  import opened Safety
  import Instruction
  import KeyRing
  import Spec

  /** The service's tables as uploads find and leave them; `stored` holds all its keys. */
  ghost predicate InOrder(w: World, stored: KeyRing.Ring, db: Database, nextEntry: nat) {
    && Sound(w) && Consistent(db) && FingerprintsTrue(w, stored, db.fingerprints)
    && FreshIdentities(db.entries, nextEntry) && nextEntry >= 1
  }

  /** The process that is asked: the keys it has loaded, and all the keys there are. */
  datatype Process = Process(ring: KeyRing.Ring, stored: KeyRing.Ring)

  /** Nothing is left to carry for: the bytes do not open there, or the payment inside them is decided. */
  predicate Finished(w: World, at: Process, claims: map<Key, Claim>, wire: bytes) {
    || w.open(wire, at.ring).Unopened?
    || match Inside(w, wire, at.stored) { case Some(key) => DecidedIn(claims, key) case None => false }
  }

  // ---------------------------------------------------------------------------------------------
  // One upload
  // ---------------------------------------------------------------------------------------------

  lemma ReleasingKeepsDecisions(db: Database, key: Key, holder: Holder)
    requires Consistent(db)
    ensures Consistent(db.(claims := Released(db.claims, key, holder)))
    ensures DecisionsKept(db.claims, Released(db.claims, key, holder))
  {
    hide Consistent, Spec.View;
    ClaimingIsInvisible(db, Released(db.claims, key, holder), key, holder, 0, 0);
  }

  /** What a settlement leaves behind, however its commit ends. */
  ghost predicate SettledFairly(db: Database, key: Key, db': Database, reply: Reply) {
    && Consistent(db') && db'.fingerprints == db.fingerprints && DecisionsKept(db.claims, db'.claims)
    && (!reply.bridgeShouldRetain ==> DecidedIn(db'.claims, key))
  }

  lemma SettlementIsFair(w: World, db: Database, d: Delivery, intent: Intent, entry: nat, fate: CommitFate)
    requires Consistent(db) && Instruction.WellFormed(intent.instruction)
    requires HeldBy(db.claims, KeyOf(intent), d.holder) && entry >= 1 && entry !in db.entries
    ensures var (db', reply) := Settlement(w, db, d, intent, entry, fate); SettledFairly(db, KeyOf(intent), db', reply)
  {
    hide Consistent, Instruction.WellFormed, DecideAlone, Spec.View;
    var req := RequestFor(w, d, intent);
    var decided, verdict := DecidedAlone(db, w.unique, req, entry);
    ReleasingKeepsDecisions(decided, req.key, req.holder);
    ReleasingKeepsDecisions(db, req.key, req.holder);
  }

  /** What every uninterrupted delivery leaves behind, however its commit ends. */
  ghost predicate Fair(w: World, at: Process, wire: bytes, db: Database, db': Database, reply: Reply) {
    && Consistent(db') && FingerprintsTrue(w, at.stored, db'.fingerprints) && DecisionsKept(db.claims, db'.claims)
    && (!reply.bridgeShouldRetain ==> Finished(w, at, db'.claims, wire))
  }

  lemma DeliveryIsFair(w: World, stored: KeyRing.Ring, db: Database, d: Delivery, entry: nat, fate: CommitFate)
    requires InOrder(w, stored, db, entry) && KeyRing.Extends(stored, d.ring)
    ensures var (db', reply) := Deliver(w, db, d, entry, fate); Fair(w, Process(d.ring, stored), d.wire, db, db', reply)
  {
    hide Sound, Consistent, FingerprintsTrue, Settlement, KeyOf;
    if KnownDecision(db, w.fingerprint(d.wire)).Some? {
      FingerprintNamesThePayment(w, stored, db.fingerprints, d.wire);
    } else if w.open(d.wire, d.ring).Opened? {
      hide Deliver;
      OpenedIsFair(w, stored, db, d, w.open(d.wire, d.ring).intent, entry, fate);
    }
  }

  lemma TakingKeepsDecisions(claims: map<Key, Claim>, key: Key, holder: Holder, at: int)
    requires Takeable(claims, key, at)
    ensures var taken := TakenBy(claims, key, holder, at + DEFAULT_LEASE_MS);
            DecisionsKept(claims, taken) && HeldBy(taken, key, holder)
  {}

  /** A delivery that reads its envelope. */
  lemma OpenedIsFair(w: World, stored: KeyRing.Ring, db: Database, d: Delivery, intent: Intent, entry: nat,
                     fate: CommitFate)
    requires InOrder(w, stored, db, entry) && KeyRing.Extends(stored, d.ring)
    requires KnownDecision(db, w.fingerprint(d.wire)).None? && w.open(d.wire, d.ring) == Opened(intent)
    ensures var (db', reply) := Deliver(w, db, d, entry, fate); Fair(w, Process(d.ring, stored), d.wire, db, db', reply)
  {
    hide Sound, Consistent, FingerprintsTrue, Settlement, Deliver, Spec.View, KeyOf, KnownDecision,
      Instruction.WellFormed, DecisionsKept, Takeable, TakenBy, SettledFairly;
    var key, noted := KeyOf(intent), Noted(w, db, d.wire, KeyOf(intent));
    DeliveryUnfolds(w, db, d, intent, entry, fate);
    FingerprintIsInvisible(db, noted.fingerprints);
    ReadsAndNotes(w, stored, db, d, intent);
    if Takeable(db.claims, key, d.dbNow) {
      TakingIsFair(w, noted, d, intent, entry, fate);
      hide Noted;
      assert Deliver(w, db, d, entry, fate).0.fingerprints == noted.fingerprints by {
        FairParts(noted, key, Deliver(w, db, d, entry, fate).0, Deliver(w, db, d, entry, fate).1);
      }
      FairParts(noted, key, Deliver(w, db, d, entry, fate).0, Deliver(w, db, d, entry, fate).1);
    } else {
      SameDecisionsKept(db.claims);
    }
  }

  lemma FairParts(db: Database, key: Key, db': Database, reply: Reply)
    requires SettledFairly(db, key, db', reply)
    ensures Consistent(db') && db'.fingerprints == db.fingerprints && DecisionsKept(db.claims, db'.claims)
    ensures !reply.bridgeShouldRetain ==> DecidedIn(db'.claims, key)
  {
    hide Consistent, DecisionsKept;
  }

  lemma ReadsAndNotes(w: World, stored: KeyRing.Ring, db: Database, d: Delivery, intent: Intent)
    requires Sound(w) && FingerprintsTrue(w, stored, db.fingerprints) && KeyRing.Extends(stored, d.ring)
    requires w.open(d.wire, d.ring) == Opened(intent)
    ensures Instruction.WellFormed(intent.instruction) && Inside(w, d.wire, stored) == Some(KeyOf(intent))
    ensures FingerprintsTrue(w, stored, Noted(w, db, d.wire, KeyOf(intent)).fingerprints)
  {
    hide FingerprintsTrue, KeyOf, Instruction.WellFormed;
    ReadingIsStable(w, d.ring, stored, d.wire);
    assert Instruction.WellFormed(w.open(d.wire, stored).intent.instruction);
    NotedFingerprintsAreTrue(w, stored, db.fingerprints, d.wire, KeyOf(intent));
  }

  lemma TakingIsFair(w: World, db: Database, d: Delivery, intent: Intent, entry: nat, fate: CommitFate)
    requires Consistent(db) && Instruction.WellFormed(intent.instruction) && Takeable(db.claims, KeyOf(intent), d.dbNow)
    requires entry >= 1 && entry !in db.entries
    ensures var claims := TakenBy(db.claims, KeyOf(intent), d.holder, d.dbNow + DEFAULT_LEASE_MS);
            var (db', reply) := Settlement(w, db.(claims := claims), d, intent, entry, fate);
            SettledFairly(db, KeyOf(intent), db', reply)
  {
    hide Consistent, Settlement, Spec.View, SameDecisions, KeyOf, Instruction.WellFormed, DecisionsKept, TakenBy,
      HeldBy, Takeable;
    var key := KeyOf(intent);
    var claims := TakenBy(db.claims, key, d.holder, d.dbNow + DEFAULT_LEASE_MS);
    ClaimingIsInvisible(db, claims, key, d.holder, d.dbNow, DEFAULT_LEASE_MS);
    TakingKeepsDecisions(db.claims, key, d.holder, d.dbNow);
    SettlementIsFair(w, db.(claims := claims), d, intent, entry, fate);
    KeptTwice(db.claims, claims, Settlement(w, db.(claims := claims), d, intent, entry, fate).0.claims);
  }

  lemma SameDecisionsKept(claims: map<Key, Claim>)
    ensures DecisionsKept(claims, claims)
  {}

  lemma KeptTwice(a: map<Key, Claim>, b: map<Key, Claim>, c: map<Key, Claim>)
    requires DecisionsKept(a, b) && DecisionsKept(b, c)
    ensures DecisionsKept(a, c)
  {}

  // ---------------------------------------------------------------------------------------------
  // Flushing
  // ---------------------------------------------------------------------------------------------

  /** Nothing is gained or altered, and whatever is gone was finished. */
  ghost predicate DroppedOnlyFinished(w: World, at: Process, claims: map<Key, Claim>, before: Holding, after: Holding) {
    && (forall k :: k in after ==> k in before && after[k] == before[k])
    && (forall k :: k in before && k !in after ==> Finished(w, at, claims, before[k].wire))
  }

  lemma FinishedStays(w: World, at: Process, earlier: map<Key, Claim>, later: map<Key, Claim>, before: Holding,
                      after: Holding)
    requires DroppedOnlyFinished(w, at, earlier, before, after) && DecisionsKept(earlier, later)
    ensures DroppedOnlyFinished(w, at, later, before, after)
  {
    hide KeyOf;
  }

  /** How many uploads were answered with "no need to keep it". */
  function Drops(results: seq<(NodeId, Reply)>): nat {
    if results == [] then 0
    else Drops(results[..|results| - 1]) + if results[|results| - 1].1.bridgeShouldRetain then 0 else 1
  }

  lemma DropsOneMore(results: seq<(NodeId, Reply)>, result: (NodeId, Reply))
    ensures Drops(results + [result]) == Drops(results) + if result.1.bridgeShouldRetain then 0 else 1
  {
    assert (results + [result])[..|results|] == results;
  }

  lemma {:induction false} DropsAdd(a: seq<(NodeId, Reply)>, b: seq<(NodeId, Reply)>)
    ensures Drops(a + b) == Drops(a) + Drops(b)
  {
    if b == [] {
      assert a + b == a;
    } else {
      var front, last := b[..|b| - 1], b[|b| - 1];
      DropsAdd(a, front);
      assert a + b == (a + front) + [last] && b == front + [last];
      DropsOneMore(a + front, last);
      DropsOneMore(front, last);
    }
  }

  /** One upload: an uninterrupted delivery, at any time and with any end to its commit. */
  method Upload(w: World, store: Store, at: Process, wire: bytes)
        returns (reply: Reply, ghost d: Delivery, ghost fate: CommitFate)
    requires InOrder(w, at.stored, store.Tables(), store.nextEntry) && KeyRing.Extends(at.stored, at.ring)
    modifies store
    ensures InOrder(w, at.stored, store.Tables(), store.nextEntry)
    ensures d.wire == wire && d.ring == at.ring
    ensures Deliver(w, old(store.Tables()), d, old(store.nextEntry), fate) == (store.Tables(), reply)
    ensures DecisionsKept(old(store.claims), store.claims)
    ensures !reply.bridgeShouldRetain ==> Finished(w, at, store.claims, wire)
  {
    hide Sound, Consistent, FingerprintsTrue, Deliver, DecisionsKept, Finished;
    var now, dbNow, holder, fated := *, *, *, *;
    var delivery := Delivery(wire, at.ring, now, dbNow, holder);
    DeliveryIsFair(w, at.stored, store.Tables(), delivery, store.nextEntry, fated);
    d, fate := delivery, fated;
    reply := DecideDelivery(w, store, delivery, fated);
  }

  /** What was uploaded, when, how its commit ended, the tables on either side of it, and the answer. */
  datatype Posted = Posted(bridge: NodeId, key: Tables.Fingerprint, d: Delivery, fate: CommitFate, entry: nat,
                           before: Database, after: Database, reply: Reply)

  ghost predicate IsDelivered(w: World, at: Process, u: Posted) {
    && InOrder(w, at.stored, u.before, u.entry) && u.d.ring == at.ring
    && Deliver(w, u.before, u.d, u.entry, u.fate) == (u.after, u.reply)
  }

  /** The uploads lead, one after the other, from these tables to those. */
  ghost predicate Chain(w: World, at: Process, log: seq<Posted>, db: Database, db': Database)
    decreases |log|
  {
    if log == [] then db' == db else
      var front, last := log[..|log| - 1], log[|log| - 1];
      IsDelivered(w, at, last) && last.after == db' && Chain(w, at, front, db, last.before)
  }

  lemma ChainGrows(w: World, at: Process, log: seq<Posted>, u: Posted, db: Database)
    requires Chain(w, at, log, db, u.before) && IsDelivered(w, at, u)
    ensures Chain(w, at, log + [u], db, u.after)
  {
    hide IsDelivered;
    assert (log + [u])[..|log|] == log;
  }

  lemma {:induction false} ChainsJoin(w: World, at: Process, log: seq<Posted>, more: seq<Posted>, a: Database,
                                      b: Database, c: Database)
    requires Chain(w, at, log, a, b) && Chain(w, at, more, b, c)
    ensures Chain(w, at, log + more, a, c)
    decreases |more|
  {
    hide IsDelivered;
    if more == [] {
      assert log + more == log;
    } else {
      var front, last := more[..|more| - 1], more[|more| - 1];
      ChainsJoin(w, at, log, front, a, b, last.before);
      ChainGrows(w, at, log + front, last, a);
      assert log + more == log + front + [last];
    }
  }

  /** The upload is of an envelope that the phone held, and the phone still holds it exactly if told to. */
  predicate Answered(u: Posted, before: Holdings, after: Holdings) {
    && u.key in Held(before, u.bridge) && u.d.wire == Held(before, u.bridge)[u.key].wire
    && (u.key in Held(after, u.bridge) <==> u.reply.bridgeShouldRetain)
  }

  /** One upload for each of these copies. */
  ghost predicate EachOnce(log: seq<Posted>, copies: set<(NodeId, Tables.Fingerprint)>, before: Holdings,
                           after: Holdings) {
    && (forall i :: 0 <= i < |log| ==> Answered(log[i], before, after) && (log[i].bridge, log[i].key) in copies)
    && (forall i, j :: 0 <= i < j < |log| ==> (log[i].bridge, log[i].key) != (log[j].bridge, log[j].key))
    && (forall n, k :: (n, k) in copies ==> exists i :: 0 <= i < |log| && log[i].bridge == n && log[i].key == k)
  }

  lemma EachOnceJoin(log: seq<Posted>, more: seq<Posted>, copies: set<(NodeId, Tables.Fingerprint)>,
                     others: set<(NodeId, Tables.Fingerprint)>, before: Holdings, now: Holdings, after: Holdings)
    requires EachOnce(log, copies, before, now) && EachOnce(more, others, before, after) && copies !! others
    requires forall n, k :: (n, k) in copies ==> (k in Held(now, n) <==> k in Held(after, n))
    ensures EachOnce(log + more, copies + others, before, after)
  {
    hide Held;
    var all := log + more;
    forall n, k | (n, k) in copies + others
      ensures exists i :: 0 <= i < |all| && all[i].bridge == n && all[i].key == k
    {
      if (n, k) in copies {
        var i :| 0 <= i < |log| && log[i].bridge == n && log[i].key == k;
        assert all[i] == log[i];
      } else {
        var i :| 0 <= i < |more| && more[i].bridge == n && more[i].key == k;
        assert all[|log| + i] == more[i];
      }
    }
    forall i, j | 0 <= i < j < |all|
      ensures (all[i].bridge, all[i].key) != (all[j].bridge, all[j].key)
    {
      if i < |log| <= j {
        assert (all[i].bridge, all[i].key) in copies && (all[j].bridge, all[j].key) in others;
      }
    }
  }

  /** The result list names each upload's bridge and answer. */
  ghost predicate Reported(results: seq<(NodeId, Reply)>, log: seq<Posted>) {
    |results| == |log| && forall i :: 0 <= i < |log| ==> results[i] == (log[i].bridge, log[i].reply)
  }

  /** The answer to one upload, and the bridge's copy kept or forgotten by it. */
  method UploadHeld(w: World, store: Store, at: Process, bridge: MeshNode, key: Tables.Fingerprint)
        returns (reply: Reply, ghost u: Posted)
    requires InOrder(w, at.stored, store.Tables(), store.nextEntry) && KeyRing.Extends(at.stored, at.ring)
    requires key in bridge.held
    modifies store, bridge`held
    ensures InOrder(w, at.stored, store.Tables(), store.nextEntry)
    ensures IsDelivered(w, at, u) && u.before == old(store.Tables()) && u.after == store.Tables() && u.reply == reply
    ensures u.bridge == bridge.id && u.key == key && u.d.wire == old(bridge.held)[key].wire
    ensures DecisionsKept(old(store.claims), store.claims)
    ensures bridge.held == if reply.bridgeShouldRetain then old(bridge.held) else old(bridge.held) - {key}
    ensures !reply.bridgeShouldRetain ==> Finished(w, at, store.claims, old(bridge.held)[key].wire)
  {
    hide InOrder, DecisionsKept, Finished, Deliver;
    ghost var before, entry := store.Tables(), store.nextEntry;
    ghost var d, fate;
    reply, d, fate := Upload(w, store, at, bridge.held[key].wire);
    u := Posted(bridge.id, key, d, fate, entry, before, store.Tables(), reply);
    if !reply.bridgeShouldRetain {
      bridge.Forget(key);
    }
  }

  lemma OneMoreUploaded(w: World, at: Process, earlier: map<Key, Claim>, later: map<Key, Claim>, before: Holding,
                        now: Holding, after: Holding, key: Tables.Fingerprint, retained: bool)
    requires DroppedOnlyFinished(w, at, earlier, before, now) && DecisionsKept(earlier, later) && key in now
    requires after == if retained then now else now - {key}
    requires !retained ==> Finished(w, at, later, now[key].wire)
    ensures DroppedOnlyFinished(w, at, later, before, after)
    ensures |now| == |after| + if retained then 0 else 1
  {
    FinishedStays(w, at, earlier, later, before, now);
    hide Finished;
    assert now.Keys == (now - {key}).Keys + {key};
  }

  function Copies(n: NodeId, keys: set<Tables.Fingerprint>): set<(NodeId, Tables.Fingerprint)> {
    set k | k in keys :: (n, k)
  }

  lemma OneMoreAnswered(log: seq<Posted>, u: Posted, done: set<Tables.Fingerprint>, before: Holding, now: Holding,
                        after: Holding)
    requires EachOnce(log, Copies(u.bridge, done), map[u.bridge := before], map[u.bridge := now]) && u.key !in done
    requires u.key in before && u.d.wire == before[u.key].wire && u.key in now
    requires after == if u.reply.bridgeShouldRetain then now else now - {u.key}
    ensures EachOnce(log + [u], Copies(u.bridge, done + {u.key}), map[u.bridge := before], map[u.bridge := after])
  {
    assert EachOnce([u], {(u.bridge, u.key)}, map[u.bridge := before], map[u.bridge := after]) by {
      assert [u][0] == u;
    }
    EachOnceJoin(log, [u], Copies(u.bridge, done), {(u.bridge, u.key)}, map[u.bridge := before],
                 map[u.bridge := now], map[u.bridge := after]);
    assert Copies(u.bridge, done + {u.key}) == Copies(u.bridge, done) + {(u.bridge, u.key)};
  }

  // ---------------------------------------------------------------------------------------------
  // What a flush does
  // ---------------------------------------------------------------------------------------------

  /** Each commit is acknowledged, and any lease on what could be read had run out when the claim was asked for. */
  ghost predicate Unhindered(w: World, at: Process, claims: map<Key, Claim>, log: seq<Posted>) {
    forall i :: 0 <= i < |log| ==> log[i].fate == Acknowledged && NotInTheWay(w, at, claims, log[i].d)
  }

  ghost predicate NotInTheWay(w: World, at: Process, claims: map<Key, Claim>, d: Delivery) {
    forall key :: Inside(w, d.wire, at.ring) == Some(key) && key in claims && claims[key].state == InProgress ==>
      claims[key].lease.Some? && claims[key].lease.value < d.dbNow
  }

  /** A claim has changed only by being decided. */
  ghost predicate OnlyDecided(earlier: map<Key, Claim>, later: map<Key, Claim>) {
    forall k :: Lookup(later, k) == Lookup(earlier, k) || DecidedIn(later, k)
  }

  /** The upload let the copy go, and what could be read of it is decided. */
  ghost predicate LeftDecided(w: World, at: Process, claims: map<Key, Claim>, u: Posted) {
    && !u.reply.bridgeShouldRetain
    && forall key :: Inside(w, u.d.wire, at.ring) == Some(key) ==> DecidedIn(claims, key)
  }

  lemma KnownIsDecided(w: World, at: Process, u: Posted, known: Key)
    requires IsDelivered(w, at, u) && KeyRing.Extends(at.stored, at.ring)
    requires KnownDecision(u.before, w.fingerprint(u.d.wire)) == Some(known)
    ensures LeftDecided(w, at, u.after.claims, u) && OnlyDecided(u.before.claims, u.after.claims)
  {
    hide Sound, Consistent, FingerprintsTrue, KeyOf, Settlement;
    FingerprintNamesThePayment(w, at.stored, u.before.fingerprints, u.d.wire);
    if w.open(u.d.wire, at.ring).Opened? {
      ReadingIsStable(w, at.ring, at.stored, u.d.wire);
    }
  }

  lemma ReadIsDecided(w: World, at: Process, u: Posted, intent: Intent)
    requires IsDelivered(w, at, u) && KeyRing.Extends(at.stored, at.ring) && u.fate == Acknowledged
    requires KnownDecision(u.before, w.fingerprint(u.d.wire)) == None && w.open(u.d.wire, at.ring) == Opened(intent)
    requires Takeable(u.before.claims, KeyOf(intent), u.d.dbNow) || DecidedIn(u.before.claims, KeyOf(intent))
    ensures LeftDecided(w, at, u.after.claims, u) && OnlyDecided(u.before.claims, u.after.claims)
  {
    hide Sound, Consistent, FingerprintsTrue, KeyOf, Settlement, Deliver, Takeable, TakenBy, Instruction.WellFormed,
      KnownDecision, Noted, Spec.View, OnlyDecided, DecidedRow;
    OpenedIsWellFormed(w, u.d.wire, at.ring, intent);
    var key, noted := KeyOf(intent), Noted(w, u.before, u.d.wire, KeyOf(intent));
    DeliveryUnfolds(w, u.before, u.d, intent, u.entry, Acknowledged);
    FingerprintIsInvisible(u.before, noted.fingerprints);
    if Takeable(u.before.claims, key, u.d.dbNow) {
      var decided, verdict := TakenClaimIsDecided(w, noted, u.d, intent, u.entry);
      RowIsDecided(u.before.claims, key, u.d.holder, u.d.dbNow + DEFAULT_LEASE_MS, verdict);
    } else {
      NothingChanged(u.before.claims);
    }
  }

  lemma RowIsDecided(claims: map<Key, Claim>, key: Key, holder: Holder, until: int, verdict: Verdict)
    ensures var later := TakenBy(claims, key, holder, until)[key := DecidedRow(holder, verdict)];
            OnlyDecided(claims, later) && DecidedIn(later, key) && !Original(key, verdict).bridgeShouldRetain
  {}

  lemma UploadDecides(w: World, at: Process, claims: map<Key, Claim>, u: Posted)
    requires IsDelivered(w, at, u) && KeyRing.Extends(at.stored, at.ring) && u.fate == Acknowledged
    requires NotInTheWay(w, at, claims, u.d) && OnlyDecided(claims, u.before.claims)
    ensures LeftDecided(w, at, u.after.claims, u) && OnlyDecided(u.before.claims, u.after.claims)
  {
    var known := KnownDecision(u.before, w.fingerprint(u.d.wire));
    if known.Some? {
      KnownIsDecided(w, at, u, known.value);
    } else {
      match w.open(u.d.wire, at.ring)
      case Opened(intent) => ReadIsDecided(w, at, u, intent);
      case Unopened(_, _) =>
    }
  }

  lemma OnlyDecidedTwice(a: map<Key, Claim>, b: map<Key, Claim>, c: map<Key, Claim>)
    requires OnlyDecided(a, b) && OnlyDecided(b, c)
    ensures OnlyDecided(a, c)
  {}

  /** Uploads that nothing hinders leave every payment they could read decided, and no copy that is still wanted. */
  lemma {:induction false} FlushDecides(w: World, at: Process, log: seq<Posted>, db: Database, db': Database)
    requires Chain(w, at, log, db, db') && KeyRing.Extends(at.stored, at.ring) && Unhindered(w, at, db.claims, log)
    ensures OnlyDecided(db.claims, db'.claims)
    ensures forall i :: 0 <= i < |log| ==> LeftDecided(w, at, db'.claims, log[i])
    decreases |log|
  {
    hide IsDelivered, NotInTheWay, OnlyDecided, LeftDecided;
    if log == [] {
      NothingChanged(db.claims);
    } else {
      var front, last := log[..|log| - 1], log[|log| - 1];
      FlushDecides(w, at, front, db, last.before);
      UploadDecides(w, at, db.claims, last);
      OnlyDecidedTwice(db.claims, last.before.claims, last.after.claims);
      forall i | 0 <= i < |front|
        ensures LeftDecided(w, at, db'.claims, log[i])
      {
        assert front[i] == log[i];
        LeftDecidedStays(w, at, last.before.claims, last.after.claims, log[i]);
      }
    }
  }

  lemma NothingChanged(claims: map<Key, Claim>)
    ensures OnlyDecided(claims, claims)
  {}

  lemma LeftDecidedStays(w: World, at: Process, earlier: map<Key, Claim>, later: map<Key, Claim>, u: Posted)
    requires LeftDecided(w, at, earlier, u) && OnlyDecided(earlier, later)
    ensures LeftDecided(w, at, later, u)
  {
    hide KeyOf;
  }

  /** Other phones keep all they hold; a bridge drops only what is finished. */
  ghost predicate FlushedFairly(w: World, at: Process, claims: map<Key, Claim>, bridges: set<NodeId>,
                                before: Holdings, after: Holdings) {
    && after.Keys == before.Keys
    && (forall n :: n in before && n !in bridges ==> after[n] == before[n])
    && (forall n :: n in before && n in bridges ==> DroppedOnlyFinished(w, at, claims, before[n], after[n]))
  }

  /** The copies that these phones hold. */
  function CopiesIn(before: Holdings, bridges: set<NodeId>): set<(NodeId, Tables.Fingerprint)> {
    set n, k | n in bridges && k in Held(before, n) :: (n, k)
  }

  /**
   * What a flush of these bridges does. Its uploads are deliveries, one after the other, one for each copy that
   * the bridges held, each answered in the result under its bridge's id; a copy stays exactly if its answer says
   * so. No decision is undone, bridges drop only what is finished, and the other phones keep everything.
   */
  ghost predicate Flushed(w: World, at: Process, bridges: set<NodeId>, begun: Database, db: Database,
                          before: Holdings, after: Holdings, results: seq<(NodeId, Reply)>, log: seq<Posted>) {
    && Chain(w, at, log, begun, db) && Reported(results, log)
    && EachOnce(log, CopiesIn(before, bridges), before, after)
    && DecisionsKept(begun.claims, db.claims)
    && FlushedFairly(w, at, db.claims, bridges, before, after)
  }

  /** The bridges are empty, and every payment they held that the process could read is decided. */
  ghost predicate Emptied(w: World, at: Process, bridges: set<NodeId>, claims: map<Key, Claim>, before: Holdings,
                          after: Holdings) {
    && (forall n :: n in bridges ==> Held(after, n) == map[])
    && forall n, k, key ::
         n in bridges && k in Held(before, n) && Inside(w, Held(before, n)[k].wire, at.ring) == Some(key) ==>
           key in claims && IsDecided(claims[key])
  }

  lemma UnhinderedFlushEmpties(w: World, at: Process, bridges: set<NodeId>, begun: Database, db: Database,
                               before: Holdings, after: Holdings, results: seq<(NodeId, Reply)>, log: seq<Posted>)
    requires Flushed(w, at, bridges, begun, db, before, after, results, log) && KeyRing.Extends(at.stored, at.ring)
    requires Unhindered(w, at, begun.claims, log)
    ensures Emptied(w, at, bridges, db.claims, before, after)
  {
    hide Finished, IsDelivered, Unhindered, DecisionsKept, Reported, KeyOf, Inside, Chain;
    FlushDecides(w, at, log, begun, db);
    forall n, k | n in bridges && k in Held(before, n)
      ensures k !in Held(after, n)
      ensures forall key :: Inside(w, Held(before, n)[k].wire, at.ring) == Some(key) ==> DecidedIn(db.claims, key)
    {
      assert (n, k) in CopiesIn(before, bridges);
      var i :| 0 <= i < |log| && log[i].bridge == n && log[i].key == k;
      assert LeftDecided(w, at, db.claims, log[i]) && Answered(log[i], before, after);
    }
    forall n | n in bridges
      ensures Held(after, n) == map[]
    {
      assert forall k :: k in Held(after, n) ==> k in Held(before, n);
    }
  }

  // ---------------------------------------------------------------------------------------------
  // One bridge
  // ---------------------------------------------------------------------------------------------

  /** All but these copies have been uploaded. */
  ghost predicate HalfFlushed(w: World, at: Process, n: NodeId, begun: Database, db: Database, entries: Holding,
                              held: Holding, todo: set<Tables.Fingerprint>, results: seq<(NodeId, Reply)>,
                              log: seq<Posted>) {
    && todo <= entries.Keys
    && Chain(w, at, log, begun, db) && Reported(results, log)
    && EachOnce(log, Copies(n, entries.Keys - todo), map[n := entries], map[n := held])
    && DecisionsKept(begun.claims, db.claims)
    && DroppedOnlyFinished(w, at, db.claims, entries, held)
    && |results| + |todo| == |entries| == |held| + Drops(results)
  }

  lemma NothingFlushed(w: World, at: Process, n: NodeId, begun: Database, entries: Holding)
    ensures HalfFlushed(w, at, n, begun, begun, entries, entries, entries.Keys, [], [])
  {
    hide Finished;
    assert |entries.Keys| == |entries|;
  }

  lemma OneMoreFlushed(w: World, at: Process, u: Posted, begun: Database, entries: Holding, now: Holding,
                       held: Holding, todo: set<Tables.Fingerprint>, results: seq<(NodeId, Reply)>, log: seq<Posted>)
    requires HalfFlushed(w, at, u.bridge, begun, u.before, entries, now, todo, results, log)
    requires u.key in todo && todo <= now.Keys && u.d.wire == now[u.key].wire && IsDelivered(w, at, u)
    requires DecisionsKept(u.before.claims, u.after.claims)
    requires held == if u.reply.bridgeShouldRetain then now else now - {u.key}
    requires !u.reply.bridgeShouldRetain ==> Finished(w, at, u.after.claims, now[u.key].wire)
    ensures HalfFlushed(w, at, u.bridge, begun, u.after, entries, held, todo - {u.key},
                        results + [(u.bridge, u.reply)], log + [u])
  {
    hide Chain, EachOnce, DecisionsKept, Finished, IsDelivered, Drops;
    KeptTwice(begun.claims, u.before.claims, u.after.claims);
    OneMoreUploaded(w, at, u.before.claims, u.after.claims, entries, now, held, u.key, u.reply.bridgeShouldRetain);
    DropsOneMore(results, (u.bridge, u.reply));
    ChainGrows(w, at, log, u, begun);
    OneMoreAnswered(log, u, entries.Keys - todo, entries, now, held);
    assert entries.Keys - todo + {u.key} == entries.Keys - (todo - {u.key});
  }

  lemma NothingGained(w: World, at: Process, claims: map<Key, Claim>, before: Holding, after: Holding)
    requires DroppedOnlyFinished(w, at, claims, before, after)
    ensures forall k :: k in after ==> k in before && after[k] == before[k]
  {
    hide Finished;
  }

  method FlushBridge(w: World, store: Store, at: Process, bridge: MeshNode)
        returns (results: seq<(NodeId, Reply)>, ghost log: seq<Posted>)
    requires InOrder(w, at.stored, store.Tables(), store.nextEntry) && KeyRing.Extends(at.stored, at.ring)
    modifies store, bridge`held
    ensures InOrder(w, at.stored, store.Tables(), store.nextEntry)
    ensures Flushed(w, at, {bridge.id}, old(store.Tables()), store.Tables(), map[bridge.id := old(bridge.held)],
                    map[bridge.id := bridge.held], results, log)
    ensures Unhindered(w, at, old(store.claims), log) ==>
              && bridge.held == map[]
              && forall k, key :: k in old(bridge.held) && Inside(w, old(bridge.held)[k].wire, at.ring) == Some(key) ==>
                   key in store.claims && IsDecided(store.claims[key])
    ensures |results| == |old(bridge.held)| == |bridge.held| + Drops(results)
  {
    hide InOrder, HalfFlushed, Flushed, Unhindered, Inside;
    results, log := [], [];
    ghost var entries, begun := bridge.held, store.Tables();
    var todo := bridge.held.Keys;
    NothingFlushed(w, at, bridge.id, begun, entries);
    while todo != {}
      invariant todo <= bridge.held.Keys
      invariant InOrder(w, at.stored, store.Tables(), store.nextEntry)
      invariant HalfFlushed(w, at, bridge.id, begun, store.Tables(), entries, bridge.held, todo, results, log)
      decreases |todo|
    {
      var key :| key in todo;
      ghost var now, u := bridge.held, *;
      var reply;
      reply, u := UploadHeld(w, store, at, bridge, key);
      OneMoreFlushed(w, at, u, begun, entries, now, bridge.held, todo, results, log);
      todo := todo - {key};
      results, log := results + [(bridge.id, reply)], log + [u];
    }
    AllFlushed(w, at, bridge.id, begun, store.Tables(), entries, bridge.held, results, log);
    if Unhindered(w, at, begun.claims, log) {
      UnhinderedFlushEmpties(w, at, {bridge.id}, begun, store.Tables(), map[bridge.id := entries],
                             map[bridge.id := bridge.held], results, log);
      EmptiedMeans(w, at, bridge.id, store.claims, entries, bridge.held);
    }
  }

  lemma EmptiedMeans(w: World, at: Process, n: NodeId, claims: map<Key, Claim>, entries: Holding, held: Holding)
    requires Emptied(w, at, {n}, claims, map[n := entries], map[n := held])
    ensures held == map[]
    ensures forall k, key :: k in entries && Inside(w, entries[k].wire, at.ring) == Some(key) ==>
              key in claims && IsDecided(claims[key])
  {
    hide Inside;
    assert Held(map[n := entries], n) == entries && Held(map[n := held], n) == held;
  }

  lemma AllFlushed(w: World, at: Process, n: NodeId, begun: Database, db: Database, entries: Holding, held: Holding,
                   results: seq<(NodeId, Reply)>, log: seq<Posted>)
    requires HalfFlushed(w, at, n, begun, db, entries, held, {}, results, log)
    ensures Flushed(w, at, {n}, begun, db, map[n := entries], map[n := held], results, log)
    ensures |results| == |entries| == |held| + Drops(results)
  {
    hide Chain, EachOnce, Reported, DroppedOnlyFinished, DecisionsKept, Drops;
    assert CopiesIn(map[n := entries], {n}) == Copies(n, entries.Keys - {});
  }

  // ---------------------------------------------------------------------------------------------
  // All bridges
  // ---------------------------------------------------------------------------------------------

  /** One phone's turn: its flush if it is a bridge, and nothing otherwise. */
  ghost predicate TurnTaken(w: World, at: Process, isBridge: bool, n: NodeId, begun: Database, db: Database,
                            before: Holdings, after: Holdings, results: seq<(NodeId, Reply)>, log: seq<Posted>) {
    && n in before && n in after && after == before[n := after[n]]
    && if isBridge then
         && Flushed(w, at, {n}, begun, db, map[n := before[n]], map[n := after[n]], results, log)
         && |before[n]| == |after[n]| + Drops(results)
       else after == before && db == begun && results == [] && log == []
  }

  /** What a bridge's own flush answers, among all phones. */
  lemma AnsweredAmongAll(log: seq<Posted>, n: NodeId, before: Holdings, after: Holdings)
    requires n in before && n in after
    requires EachOnce(log, Copies(n, before[n].Keys), map[n := before[n]], map[n := after[n]])
    ensures EachOnce(log, Copies(n, before[n].Keys), before, after)
  {
    forall i | 0 <= i < |log|
      ensures Answered(log[i], before, after)
    {
      assert (log[i].bridge, log[i].key) in Copies(n, before[n].Keys);
      assert Answered(log[i], map[n := before[n]], map[n := after[n]]);
    }
  }

  lemma BridgeExtends(w: World, at: Process, bridges: set<NodeId>, n: NodeId, begun: Database, mid: Database,
                      db: Database, before: Holdings, now: Holdings, after: Holdings, results: seq<(NodeId, Reply)>,
                      log: seq<Posted>, more: seq<(NodeId, Reply)>, moreLog: seq<Posted>)
    requires Flushed(w, at, bridges, begun, mid, before, now, results, log) && n !in bridges
    requires TurnTaken(w, at, true, n, mid, db, now, after, more, moreLog)
    ensures Flushed(w, at, bridges + {n}, begun, db, before, after, results + more, log + moreLog)
  {
    hide Chain, EachOnce, DecisionsKept, DroppedOnlyFinished, Unhindered, FlushedFairly, Reported, CopiesIn, Copies,
      Drops, Inside;
    ChainsJoin(w, at, log, moreLog, begun, mid, db);
    KeptTwice(begun.claims, mid.claims, db.claims);
    ReportedJoin(results, log, more, moreLog);
    OneBridge(w, at, n, db.claims, now[n], after[n]);
    FairnessExtends(w, at, mid.claims, db.claims, bridges, n, before, now, after);
    CopiesExtend(bridges, n, before, now, after, log, moreLog);
  }

  lemma OneBridge(w: World, at: Process, n: NodeId, claims: map<Key, Claim>, before: Holding, after: Holding)
    requires FlushedFairly(w, at, claims, {n}, map[n := before], map[n := after])
    ensures DroppedOnlyFinished(w, at, claims, before, after)
    ensures CopiesIn(map[n := before], {n}) == Copies(n, before.Keys)
  {
    hide DroppedOnlyFinished;
    assert map[n := before][n] == before && map[n := after][n] == after;
  }

  lemma ReportedJoin(results: seq<(NodeId, Reply)>, log: seq<Posted>, more: seq<(NodeId, Reply)>, moreLog: seq<Posted>)
    requires Reported(results, log) && Reported(more, moreLog)
    ensures Reported(results + more, log + moreLog)
  {}

  lemma FairnessExtends(w: World, at: Process, earlier: map<Key, Claim>, later: map<Key, Claim>, bridges: set<NodeId>,
                        n: NodeId, before: Holdings, now: Holdings, after: Holdings)
    requires FlushedFairly(w, at, earlier, bridges, before, now) && n !in bridges && DecisionsKept(earlier, later)
    requires n in now && n in after && after == now[n := after[n]]
    requires DroppedOnlyFinished(w, at, later, now[n], after[n])
    ensures FlushedFairly(w, at, later, bridges + {n}, before, after) && n in before && now[n] == before[n]
  {
    hide DroppedOnlyFinished, DecisionsKept;
    forall m | m in before && m in bridges
      ensures DroppedOnlyFinished(w, at, later, before[m], after[m])
    {
      FinishedStays(w, at, earlier, later, before[m], now[m]);
    }
  }

  lemma CopiesExtend(bridges: set<NodeId>, n: NodeId, before: Holdings, now: Holdings, after: Holdings,
                     log: seq<Posted>, moreLog: seq<Posted>)
    requires EachOnce(log, CopiesIn(before, bridges), before, now) && n !in bridges
    requires n in before && n in after && after == now[n := after[n]]
    requires EachOnce(moreLog, Copies(n, before[n].Keys), map[n := before[n]], map[n := after[n]])
    ensures EachOnce(log + moreLog, CopiesIn(before, bridges + {n}), before, after)
  {
    hide EachOnce;
    AnsweredAmongAll(moreLog, n, before, after);
    EachOnceJoin(log, moreLog, CopiesIn(before, bridges), Copies(n, before[n].Keys), before, now, after);
    assert CopiesIn(before, bridges + {n}) == CopiesIn(before, bridges) + Copies(n, before[n].Keys);
  }

  /** bridges */
  function Bridges(mesh: Mesh): set<NodeId> {
    set n | n in mesh.nodes && mesh.nodes[n].isBridge
  }

  /** The bridges among the first n phones. */
  function BridgesAmong(mesh: Mesh, n: nat): set<NodeId>
    requires n <= |mesh.ids| && forall i :: 0 <= i < |mesh.ids| ==> mesh.ids[i] in mesh.nodes
  {
    set i | 0 <= i < n && mesh.nodes[mesh.ids[i]].isBridge :: mesh.ids[i]
  }

  lemma TurnExtends(w: World, at: Process, mesh: Mesh, i: nat, begun: Database, mid: Database,
                    db: Database, before: Holdings, now: Holdings, after: Holdings, results: seq<(NodeId, Reply)>,
                    log: seq<Posted>, more: seq<(NodeId, Reply)>, moreLog: seq<Posted>)
    requires i < |mesh.ids| && (forall j :: 0 <= j < |mesh.ids| ==> mesh.ids[j] in mesh.nodes) && Distinct(mesh.ids)
    requires Flushed(w, at, BridgesAmong(mesh, i), begun, mid, before, now, results, log)
    requires TurnTaken(w, at, mesh.nodes[mesh.ids[i]].isBridge, mesh.ids[i], mid, db, now, after, more, moreLog)
    ensures Flushed(w, at, BridgesAmong(mesh, i + 1), begun, db, before, after, results + more, log + moreLog)
  {
    hide Flushed;
    var id := mesh.ids[i];
    assert id !in BridgesAmong(mesh, i);
    assert BridgesAmong(mesh, i + 1) == BridgesAmong(mesh, i) + if mesh.nodes[id].isBridge then {id} else {};
    if mesh.nodes[id].isBridge {
      BridgeExtends(w, at, BridgesAmong(mesh, i), id, begun, mid, db, before, now, after, results, log, more, moreLog);
    } else {
      assert results + more == results && log + moreLog == log && BridgesAmong(mesh, i + 1) == BridgesAmong(mesh, i);
    }
  }

  /** A turn changes the total by as many as its answers say to drop. */
  lemma TurnChanges(w: World, at: Process, mesh: Mesh, i: nat, begun: Database, db: Database, now: Holdings,
                    after: Holdings, results: seq<(NodeId, Reply)>, log: seq<Posted>)
    requires i < |mesh.ids| && mesh.ids[i] in mesh.nodes && Distinct(mesh.ids)
    requires TurnTaken(w, at, mesh.nodes[mesh.ids[i]].isBridge, mesh.ids[i], begun, db, now, after, results, log)
    ensures Total(now, mesh.ids) == Total(after, mesh.ids) + Drops(results)
  {
    hide Total, DroppedOnlyFinished, EachOnce, Chain, Reported, Unhindered, DecisionsKept;
    TotalAfterChange(now, mesh.ids, mesh.ids[i], after[mesh.ids[i]]);
  }

  method FlushPhone(w: World, store: Store, at: Process, mesh: Mesh, id: NodeId)
        returns (results: seq<(NodeId, Reply)>, ghost log: seq<Posted>)
    requires InOrder(w, at.stored, store.Tables(), store.nextEntry) && KeyRing.Extends(at.stored, at.ring)
    requires mesh.Valid() && id in mesh.nodes
    modifies store, mesh.nodes[id]
    ensures mesh.Valid() && InOrder(w, at.stored, store.Tables(), store.nextEntry)
    ensures TurnTaken(w, at, mesh.nodes[id].isBridge, id, old(store.Tables()), store.Tables(), old(mesh.View()),
                      mesh.View(), results, log)
  {
    hide InOrder, Flushed;
    results, log := [], [];
    ghost var begun, before := store.Tables(), mesh.nodes[id].held;
    if mesh.nodes[id].isBridge {
      results, log := FlushBridge(w, store, at, mesh.nodes[id]);
      BridgeGainsNothing(w, at, id, begun, store.Tables(), before, mesh.nodes[id].held, results, log);
    }
    mesh.OneViewChanged(id);
  }

  lemma BridgeGainsNothing(w: World, at: Process, n: NodeId, begun: Database, db: Database, entries: Holding,
                           held: Holding, results: seq<(NodeId, Reply)>, log: seq<Posted>)
    requires Flushed(w, at, {n}, begun, db, map[n := entries], map[n := held], results, log)
    ensures forall k :: k in held ==> k in entries && held[k] == entries[k]
  {
    hide Chain, EachOnce, Reported, DecisionsKept, DroppedOnlyFinished;
    NothingGained(w, at, db.claims, entries, held);
  }

  lemma NoTurnsTaken(w: World, at: Process, db: Database, before: Holdings)
    ensures Flushed(w, at, {}, db, db, before, before, [], []) && Drops([]) == 0
  {
    assert CopiesIn(before, {}) == {};
  }

  /** flushBridges */
  method FlushBridges(w: World, store: Store, at: Process, mesh: Mesh)
        returns (results: seq<(NodeId, Reply)>, ghost log: seq<Posted>)
    requires InOrder(w, at.stored, store.Tables(), store.nextEntry) && KeyRing.Extends(at.stored, at.ring)
    requires mesh.Valid()
    modifies store, mesh.nodes.Values
    ensures mesh.Valid() && InOrder(w, at.stored, store.Tables(), store.nextEntry)
    ensures Flushed(w, at, Bridges(mesh), old(store.Tables()), store.Tables(),
                    old(mesh.View()), mesh.View(), results, log)
    ensures Unhindered(w, at, old(store.claims), log) ==>
              Emptied(w, at, Bridges(mesh), store.claims, old(mesh.View()), mesh.View())
    ensures old(Total(mesh.View(), mesh.ids)) == Total(mesh.View(), mesh.ids) + Drops(results)
  {
    hide InOrder, Flushed, TurnTaken, Drops, Total, Unhindered, Emptied;
    results, log := [], [];
    ghost var before, begun := mesh.View(), store.Tables();
    NoTurnsTaken(w, at, begun, before);
    assert BridgesAmong(mesh, 0) == {};
    for i := 0 to |mesh.ids|
      invariant mesh.Valid() && InOrder(w, at.stored, store.Tables(), store.nextEntry)
      invariant Flushed(w, at, BridgesAmong(mesh, i), begun, store.Tables(), before, mesh.View(), results, log)
      invariant Total(before, mesh.ids) == Total(mesh.View(), mesh.ids) + Drops(results)
    {
      ghost var now, mid := mesh.View(), store.Tables();
      var uploaded;
      ghost var posted;
      uploaded, posted := FlushPhone(w, store, at, mesh, mesh.ids[i]);
      DropsAdd(results, uploaded);
      TurnChanges(w, at, mesh, i, mid, store.Tables(), now, mesh.View(), uploaded, posted);
      TurnExtends(w, at, mesh, i, begun, mid, store.Tables(), before, now, mesh.View(), results, log, uploaded, posted);
      results, log := results + uploaded, log + posted;
    }
    assert BridgesAmong(mesh, |mesh.ids|) == Bridges(mesh);
    if Unhindered(w, at, begun.claims, log) {
      UnhinderedFlushEmpties(w, at, Bridges(mesh), begun, store.Tables(), before, mesh.View(), results, log);
    }
  }
}
