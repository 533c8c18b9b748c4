/** An envelope's way from a phone to its decision, with gossip, uploads and the service all interleaved. */
module Journey {
  import opened Bytes
  import opened Wrappers
  import opened Tables
  import opened Claims
  import opened Ingest
  import opened Protocol
  import opened Safety
  import opened Runs
  import opened Progress
  import KeyRing
  import Mesh

  // ---------------------------------------------------------------------------------------------
  // The mesh beside a run of the service
  // ---------------------------------------------------------------------------------------------

  /** What the phones hold, and how far the service's run has come. */
  datatype Moment = Moment(holdings: Mesh.Holdings, at: nat)

  datatype Act =
    | Gossiped(offers: seq<Mesh.Offer>, lossy: bool)
    | ServiceStepped
    | Uploaded(bridge: Mesh.NodeId, key: Mesh.Fingerprint, id: nat)

  /** Moments and the acts between them, beside a run of the service. */
  datatype Travel = TravelOf(moment: nat -> Moment, act: nat -> Act) {
    function First(): Moment {
      moment(0)
    }

    function After(i: nat): Moment {
      moment(i + 1)
    }
  }

  function HeldBy(h: Mesh.Holdings, n: Mesh.NodeId): Mesh.Holding {
    if n in h then h[n] else map[]
  }

  ghost predicate Carries(h: Mesh.Holdings, n: Mesh.NodeId, k: Mesh.Fingerprint, wire: bytes) {
    k in HeldBy(h, n) && HeldBy(h, n)[k].wire == wire
  }

  /** Is the bridge told to keep its copy? */
  predicate MustKeep(d: InFlight) {
    match d.pc
    case Done(reply) => reply.bridgeShouldRetain
    case _ => true
  }

  /** A bridge hears the answer to one delivery of what it holds, and forgets it unless told to keep it. */
  ghost predicate Hears(d: InFlight, before: Mesh.Holdings, after: Mesh.Holdings, bridge: Mesh.NodeId,
                        key: Mesh.Fingerprint) {
    && d.pc.Done? && Carries(before, bridge, key, d.wire)
    && after == if MustKeep(d) then before else before[bridge := HeldBy(before, bridge) - {key}]
  }

  ghost predicate Acts(r: Run, a: Moment, b: Moment, act: Act) {
    match act
    case Gossiped(offers, lossy) => b.at == a.at && Mesh.Round(a.holdings, b.holdings, offers, lossy)
    case ServiceStepped => b.at == a.at + 1 && b.holdings == a.holdings
    case Uploaded(bridge, key, id) => b.at == a.at && Hears(r.state(a.at).At(id), a.holdings, b.holdings, bridge, key)
  }

  ghost predicate ActsAt(r: Run, t: Travel, i: nat) {
    Acts(r, t.moment(i), t.After(i), t.act(i))
  }

  ghost predicate IsTravel(r: Run, t: Travel) {
    forall i: nat :: ActsAt(r, t, i)
  }

  /** The service as it is at a moment. */
  function ServiceAt(r: Run, t: Travel, i: nat): State {
    r.state(t.moment(i).at)
  }

  /** The payment that these bytes hold, under the stored keys, is decided. */
  ghost predicate Over(w: World, s: State, wire: bytes) {
    exists key :: Inside(w, wire, s.ring) == Some(key) && DecidedIn(s.db.claims, key)
  }

  // ---------------------------------------------------------------------------------------------
  // What an upload loses, and what nothing else does
  // ---------------------------------------------------------------------------------------------

  /** The process that answered this delivery had not loaded the key the envelope is sealed to. */
  ghost predicate AskedInVain(w: World, d: InFlight) {
    w.open(d.wire, d.ring).Unopened?
  }

  /**
   * An undecided payment that the stored keys can open is dropped by its upload exactly when the process
   * it was posted to cannot open it.
   */
  lemma UploadDropsExactlyWhenAskedInVain(w: World, r: Run, n: nat, id: nat)
    requires Sound(w) && IsRun(w, r) && r.state(n).At(id).pc.Done?
    requires w.open(r.state(n).At(id).wire, r.state(n).ring).Opened? && !Over(w, r.state(n), r.state(n).At(id).wire)
    ensures !MustKeep(r.state(n).At(id)) <==> AskedInVain(w, r.state(n).At(id))
  {
    hide IsRun, Sound, KeyOf;
    var d := r.state(n).At(id);
    match d.pc
    case Done(reply) => DroppedExactlyWhenDecidedOrUnreadable(w, r, n, id, reply);
  }

  /** An upload at this moment of this copy, to a process that cannot open it. */
  ghost predicate LostAt(w: World, r: Run, t: Travel, i: nat, n: Mesh.NodeId, k: Mesh.Fingerprint) {
    exists id :: t.act(i) == Uploaded(n, k, id) && AskedInVain(w, ServiceAt(r, t, i).At(id))
  }

  lemma ActKeepsOrLoses(w: World, r: Run, t: Travel, i: nat, n: Mesh.NodeId, k: Mesh.Fingerprint, wire: bytes)
    requires Sound(w) && IsRun(w, r) && ActsAt(r, t, i) && Carries(t.moment(i).holdings, n, k, wire)
    requires w.open(wire, ServiceAt(r, t, i).ring).Opened? && !Over(w, ServiceAt(r, t, i), wire)
    ensures Carries(t.After(i).holdings, n, k, wire) || LostAt(w, r, t, i, n, k)
  {
    hide IsRun, Sound, Over;
    match t.act(i)
    case Uploaded(bridge, key, id) =>
      if bridge == n && key == k {
        UploadDropsExactlyWhenAskedInVain(w, r, t.moment(i).at, id);
      }
    case _ =>
  }

  lemma OverStays(w: World, r: Run, n: nat, m: nat, wire: bytes)
    requires Sound(w) && IsRun(w, r) && n <= m && Over(w, r.state(n), wire)
    ensures Over(w, r.state(m), wire)
  {
    hide IsRun, WiresKept, KeyOf;
    DecisionsAreKept(w, r, n, m);
    var key :| Inside(w, wire, r.state(n).ring) == Some(key) && DecidedIn(r.state(n).db.claims, key);
    ReadingIsStable(w, r.state(n).ring, r.state(m).ring, wire);
  }

  lemma TimePasses(r: Run, t: Travel, i: nat)
    requires IsTravel(r, t)
    ensures t.moment(i).at <= t.After(i).at
  {
    hide Mesh.Round, Hears;
    assert ActsAt(r, t, i);
  }

  lemma {:induction false} TimeHasPassed(r: Run, t: Travel, i: nat, j: nat)
    requires IsTravel(r, t) && i <= j
    ensures t.moment(i).at <= t.moment(j).at
    decreases j
  {
    hide IsTravel;
    if i < j {
      TimeHasPassed(r, t, i, j - 1);
      TimePasses(r, t, j - 1);
      assert t.After(j - 1) == t.moment(j);
    }
  }

  /**
   * A phone that holds an envelope the stored keys can open holds it for good, or the payment inside it is
   * decided, or the phone once uploaded it to a process that had not loaded its key: through any gossip,
   * losses, uploads, lost acknowledgements, crashes and rotations.
   */
  lemma {:induction false} NoPaymentIsLost(w: World, r: Run, t: Travel, i: nat, j: nat, n: Mesh.NodeId,
                                           k: Mesh.Fingerprint, wire: bytes)
    requires Sound(w) && IsRun(w, r) && IsTravel(r, t) && i <= j
    requires Carries(t.moment(i).holdings, n, k, wire) && w.open(wire, ServiceAt(r, t, i).ring).Opened?
    ensures || Carries(t.moment(j).holdings, n, k, wire)
            || Over(w, ServiceAt(r, t, j), wire)
            || exists l: nat :: i <= l < j && LostAt(w, r, t, l, n, k)
    decreases j
  {
    hide IsRun, Sound, Carries, Over, LostAt, WiresKept, DecisionsKept;
    if i < j {
      var last := j - 1;
      NoPaymentIsLost(w, r, t, i, last, n, k, wire);
      TimeHasPassed(r, t, i, last);
      TimePasses(r, t, last);
      assert t.After(last) == t.moment(j) && ActsAt(r, t, last);
      if Over(w, ServiceAt(r, t, last), wire) {
        OverStays(w, r, t.moment(last).at, t.moment(j).at, wire);
      } else if Carries(t.moment(last).holdings, n, k, wire) {
        DecisionsAreKept(w, r, t.moment(i).at, t.moment(last).at);
        ReadingIsStable(w, ServiceAt(r, t, i).ring, ServiceAt(r, t, last).ring, wire);
        ActKeepsOrLoses(w, r, t, last, n, k, wire);
      }
    }
  }

  // ---------------------------------------------------------------------------------------------
  // A payment that is lost
  // ---------------------------------------------------------------------------------------------

  /** From state 1 on the stored keys open the envelope, and its delivery goes to a process with the old ring. */
  lemma PostedToTheOldRing(w: World, older: KeyRing.Ring, newer: KeyRing.Ring, wire: bytes) returns (r: Run)
    requires Sound(w) && KeyRing.Extends(newer, older) && w.open(wire, older).Unopened?
    ensures IsRun(w, r) && r.state(1).ring == newer && r.state(4).ring == newer && r.state(4).db == EMPTY_DATABASE
    ensures r.state(4).At(0).wire == wire && r.state(4).At(0).pc.Done? && !MustKeep(r.state(4).At(0))
  {
    hide IsRun, Enabled, Next, Sound;
    var s := FirstState(older);
    RestingIsARun(w, s);
    RotatesFirst(w, s, newer);
    var a := TakeStep(w, Resting(s), 0, Rotate(newer));
    var s1 := s.(ring := newer);
    assert a.After(0) == a.state(1);
    Arriving(w, s1, 0, wire, older, 0);
    var b := TakeStep(w, a, 1, Arrive(0, wire, older, 0));
    assert b.After(1) == b.state(2);
    var d := Claiming(wire, older, 0, NO_INTENT).(pc := Protocol.LookingUp);
    Progress.LookingUp(w, s1, b.state(2), 0, d);
    var c := TakeStep(w, b, 2, LookUp(0));
    assert c.After(2) == c.state(3);
    CannotOpen(w, c.state(3), 0);
    r := TakeStep(w, c, 3, OpenEnvelope(0));
    assert r.After(3) == r.state(4);
  }

  lemma RotatesFirst(w: World, s: State, newer: KeyRing.Ring)
    requires KeyRing.Extends(newer, s.ring)
    ensures Enabled(w, s, Rotate(newer)) && Next(w, s, Rotate(newer)) == s.(ring := newer)
  {
    hide Execute, Operated, AfterAcquire, LookedUp, Unsealed, Found, AfterCommit, Noted, Wants, Free, NoneLocked;
  }

  lemma CannotOpen(w: World, s: State, id: nat)
    requires s.At(id).pc == Opening && w.open(s.At(id).wire, s.At(id).ring).Unopened?
    ensures Enabled(w, s, OpenEnvelope(id))
    ensures var s' := Next(w, s, OpenEnvelope(id));
            && s'.db == s.db && s'.ring == s.ring && s'.At(id).wire == s.At(id).wire
            && s'.At(id).pc.Done? && !MustKeep(s'.At(id))
  {
    hide Execute, Operated, AfterAcquire, LookedUp, Found, AfterCommit, Noted, Wants, Free, NoneLocked;
  }

  /** The only phone's only copy, three steps of the service, and then its upload. */
  function LastCopy(n: Mesh.NodeId, k: Mesh.Fingerprint, wire: bytes): Travel {
    TravelOf(
      (i: nat) =>
        if i <= 3 then Moment(map[n := map[k := Mesh.Carried(wire, 0)]], i + 1) else Moment(map[n := map[]], 4),
      (i: nat) => if i < 3 then ServiceStepped else if i == 3 then Uploaded(n, k, 0) else Gossiped([], false))
  }

  lemma LastCopyTravels(r: Run, n: Mesh.NodeId, k: Mesh.Fingerprint, wire: bytes)
    requires r.state(4).At(0).wire == wire && r.state(4).At(0).pc.Done? && !MustKeep(r.state(4).At(0))
    ensures IsTravel(r, LastCopy(n, k, wire))
  {
    hide MustKeep;
    var t, h := LastCopy(n, k, wire), map[n := map[k := Mesh.Carried(wire, 0)]];
    assert map[k := Mesh.Carried(wire, 0)] - {k} == map[];
    assert h[n := HeldBy(h, n) - {k}] == map[n := map[]];
    forall i: nat
      ensures ActsAt(r, t, i)
    {
      if i > 3 {
        Mesh.NoRound(map[n := map[]], false);
      }
    }
  }

  /**
   * So it can be lost: for every envelope that the stored keys open and an earlier ring does not, there is
   * a run, after the rotation, in which its last copy is uploaded to a process that still has the earlier
   * ring, and is gone while the payment is undecided.
   */
  lemma OlderProcessLosesIt(w: World, older: KeyRing.Ring, newer: KeyRing.Ring, n: Mesh.NodeId, k: Mesh.Fingerprint,
                            wire: bytes)
      returns (r: Run, t: Travel)
    requires Sound(w) && KeyRing.Extends(newer, older)
    requires w.open(wire, older).Unopened? && w.open(wire, newer).Opened?
    ensures IsRun(w, r) && IsTravel(r, t)
    ensures Carries(t.First().holdings, n, k, wire) && w.open(wire, r.state(t.First().at).ring).Opened?
    ensures forall i: nat :: i >= 4 ==>
              && !Carries(t.moment(i).holdings, n, k, wire)
              && !Over(w, ServiceAt(r, t, i), wire) && w.open(wire, ServiceAt(r, t, i).ring).Opened?
  {
    hide IsRun, Sound, IsTravel;
    r := PostedToTheOldRing(w, older, newer, wire);
    t := LastCopy(n, k, wire);
    LastCopyTravels(r, n, k, wire);
  }
}
