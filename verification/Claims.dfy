/** apps/server/src/claims.js: leased claims on payment intents. */
module Claims {
  import opened Wrappers
  import opened Tables

  const DEFAULT_LEASE_MS: int := 30_000

  /** What a transaction decided about a payment. */
  datatype Verdict = Settle(entry: nat) | Refuse(code: Code, detail: Detail)

  function CodeOf(verdict: Verdict): Code {
    match verdict
    case Settle(_) => SettledCode
    case Refuse(code, _) => code
  }

  datatype AcquireStatus = Acquired(holder: Holder) | AlreadyDecided(claim: Claim) | HeldElsewhere

  predicate IsDecided(claim: Claim) {
    claim.state == Settled || claim.state == Rejected
  }

  predicate DecidedIn(claims: map<Key, Claim>, key: Key) {
    key in claims && IsDecided(claims[key])
  }

  /** May an acquire at this time take the row? Nobody has it, or its lease ran out undecided. */
  predicate Takeable(claims: map<Key, Claim>, key: Key, now: int) {
    key !in claims ||
    (claims[key].state == InProgress && claims[key].lease.Some? && claims[key].lease.value < now)
  }

  /** The claims once this holder has the row until then. */
  function TakenBy(claims: map<Key, Claim>, key: Key, holder: Holder, until: int): map<Key, Claim> {
    claims[key :=
      if key in claims then claims[key].(holder := holder, lease := Some(until))
      else Claim(InProgress, holder, Some(until), None, None, None)]
  }

  /** INSERT .. ON CONFLICT DO UPDATE .. RETURNING: None when the conflict writes nothing. */
  function Upsert(claims: map<Key, Claim>, key: Key, holder: Holder, now: int, leaseMs: int): Option<map<Key, Claim>> {
    if Takeable(claims, key, now) then Some(TakenBy(claims, key, holder, now + leaseMs)) else None
  }

  /** The second statement of acquire: why the upsert wrote nothing. */
  function WhyNot(claims: map<Key, Claim>, key: Key): AcquireStatus {
    if DecidedIn(claims, key) then AlreadyDecided(claims[key]) else HeldElsewhere
  }

  predicate HeldBy(claims: map<Key, Claim>, key: Key, holder: Holder) {
    key in claims && claims[key].holder == holder && claims[key].state == InProgress
  }

  /** The decided row. The holder column keeps its last value. */
  function DecidedRow(holder: Holder, verdict: Verdict): Claim {
    match verdict
    case Settle(entry) => Claim(Settled, holder, None, Some(entry), None, Some(Blank))
    case Refuse(code, detail) => Claim(Rejected, holder, None, None, Some(code), Some(detail))
  }

  /** None when no row was updated: the caller no longer holds the claim. */
  function UpdateDecision(claims: map<Key, Claim>, key: Key, holder: Holder,
                          verdict: Verdict): Option<map<Key, Claim>> {
    if HeldBy(claims, key, holder) then Some(claims[key := DecidedRow(holder, verdict)]) else None
  }

  function Released(claims: map<Key, Claim>, key: Key, holder: Holder): map<Key, Claim> {
    if HeldBy(claims, key, holder) then claims - {key} else claims
  }

  method Acquire(store: Store, key: Key, holder: Holder, now: int, leaseMs: int) returns (r: AcquireStatus)
    modifies store`claims
    ensures Upsert(old(store.claims), key, holder, now, leaseMs)
         == if r.Acquired? then Some(store.claims) else None
    ensures r == if r.Acquired? then Acquired(holder) else WhyNot(old(store.claims), key)
    ensures r.Acquired? <==>
            || key !in old(store.claims)
            || (var row := old(store.claims)[key]; row.state == InProgress && row.lease.Some? && row.lease.value < now)
    ensures r.Acquired? ==>
            && store.claims.Keys == old(store.claims.Keys) + {key}
            && store.claims[key].state == InProgress && store.claims[key].holder == holder
            && store.claims[key].lease == Some(now + leaseMs)
            && forall k :: k in old(store.claims) && k != key ==> store.claims[k] == old(store.claims)[k]
    ensures !r.Acquired? ==>
            && store.claims == old(store.claims)
            && (r == HeldElsewhere <==> old(store.claims)[key].state == InProgress)
            && (r.AlreadyDecided? ==> r.claim == old(store.claims)[key])
  {
    if key !in store.claims {
      store.claims := store.claims[key := Claim(InProgress, holder, Some(now + leaseMs), None, None, None)];
      return Acquired(holder);
    }
    var row := store.claims[key];
    if row.state == InProgress && row.lease.Some? && row.lease.value < now {
      store.claims := store.claims[key := row.(holder := holder, lease := Some(now + leaseMs))];
      return Acquired(holder);
    }
    return if IsDecided(row) then AlreadyDecided(row) else HeldElsewhere;
  }

  /** markSettled and markRejected. */
  method MarkDecision(store: Store, key: Key, holder: Holder, verdict: Verdict) returns (held: bool)
    modifies store`claims
    ensures UpdateDecision(old(store.claims), key, holder, verdict) == if held then Some(store.claims) else None
    ensures held <==>
            && key in old(store.claims)
            && old(store.claims)[key].state == InProgress && old(store.claims)[key].holder == holder
    ensures !held ==> store.claims == old(store.claims)
    ensures held ==>
            && store.claims == old(store.claims)[key := store.claims[key]] && store.claims[key].lease == None
            && match verdict
               case Settle(entry) => store.claims[key].state == Settled && store.claims[key].entry == Some(entry)
               case Refuse(code, detail) =>
                 && store.claims[key].state == Rejected && store.claims[key].entry == None
                 && store.claims[key].code == Some(code) && store.claims[key].reason == Some(detail)
  {
    if HeldBy(store.claims, key, holder) {
      store.claims := store.claims[key := DecidedRow(holder, verdict)];
      return true;
    }
    return false;
  }

  method Release(store: Store, key: Key, holder: Holder)
    modifies store`claims
    ensures store.claims == Released(old(store.claims), key, holder)
    ensures store.claims ==
            if && key in old(store.claims)
               && old(store.claims)[key].state == InProgress && old(store.claims)[key].holder == holder
            then old(store.claims) - {key} else old(store.claims)
  {
    if HeldBy(store.claims, key, holder) {
      store.claims := store.claims - {key};
    }
  }

  /** Whoever took a claim has it for the length of the lease, to the millisecond, and nobody else has it until then. */
  lemma LeaseIsKept(claims: map<Key, Claim>, key: Key, holder: Holder, at: int, leaseMs: int, other: Holder, now: int,
                    otherLeaseMs: int)
    requires Upsert(claims, key, holder, at, leaseMs).Some?
    ensures var taken := Upsert(claims, key, holder, at, leaseMs).value;
            && (Upsert(taken, key, other, now, otherLeaseMs).Some? <==> at + leaseMs < now)
            && WhyNot(taken, key) == HeldElsewhere && HeldBy(taken, key, holder)
            && (at + leaseMs < now ==> HeldBy(Upsert(taken, key, other, now, otherLeaseMs).value, key, other))
  {}

  /** A decided claim is final: no acquire, decision or release by anyone changes it. */
  lemma DecidedIsFinal(claims: map<Key, Claim>, key: Key, other: Key, holder: Holder, now: int, leaseMs: int,
                       verdict: Verdict)
    requires DecidedIn(claims, key)
    ensures Upsert(claims, key, holder, now, leaseMs).None?
    ensures UpdateDecision(claims, key, holder, verdict).None?
    ensures Upsert(claims, other, holder, now, leaseMs).Some? ==>
              Lookup(Upsert(claims, other, holder, now, leaseMs).value, key) == Some(claims[key])
    ensures UpdateDecision(claims, other, holder, verdict).Some? ==>
              Lookup(UpdateDecision(claims, other, holder, verdict).value, key) == Some(claims[key])
    ensures Lookup(Released(claims, other, holder), key) == Some(claims[key])
  {}

  /** After a takeover, or a release and a new acquire, the earlier holder can no longer decide. */
  lemma EarlierHolderIsShutOut(claims: map<Key, Claim>, key: Key, stale: Holder, holder: Holder,
                               now: int, leaseMs: int, verdict: Verdict)
    requires stale != holder
    ensures Upsert(claims, key, holder, now, leaseMs).Some? ==>
              UpdateDecision(Upsert(claims, key, holder, now, leaseMs).value, key, stale, verdict).None?
    ensures HeldBy(claims, key, stale) ==>
              && UpdateDecision(Released(claims, key, stale), key, stale, verdict).None?
              && Upsert(Released(claims, key, stale), key, holder, now, leaseMs).Some?
  {}
}
