/** What the committed tables always satisfy, and how one decision changes them. */
module Consistency {
  import opened Bytes
  import opened Wrappers
  import opened Tables
  import opened Claims
  import opened Ingest
  import opened Registry
  import Instruction
  import KeyRing
  import Ledger
  import Receipts
  import Spec

  predicate WellShaped(claim: Claim) {
    match claim.state
    case InProgress => claim.lease.Some? && claim.entry.None?
    case Settled => claim.entry.Some? && claim.code.None? && claim.reason == Some(Blank)
    case Rejected => claim.entry.None? && claim.code.Some? && claim.reason.Some?
  }

  /** SETTLED exactly when one PAYMENT entry has the key, and the claim names it. */
  ghost predicate ClaimsMatchEntries(claims: map<Key, Claim>, entries: map<nat, Entry>) {
    && (forall k :: k in claims ==> WellShaped(claims[k]))
    && (forall k :: k in claims && claims[k].state == Settled ==>
          claims[k].entry.value in entries && entries[claims[k].entry.value] == Entry(k, PaymentEntry))
    && (forall e :: e in entries ==> e >= 1 && entries[e].kind != GenesisEntry)
    && (forall e :: e in entries && entries[e].kind == PaymentEntry ==>
          && entries[e].key in claims
          && claims[entries[e].key].state == Settled
          && claims[entries[e].key].entry == Some(e))
    && (forall e :: e in entries && entries[e].kind == TopUpEntry ==>
          Instruction.IsTopUpKey(entries[e].key))
  }

  /** A receipt exists exactly for the decided payments, and says what was decided. */
  ghost predicate ReceiptsMatchClaims(receipts: map<Key, Receipt>, claims: map<Key, Claim>) {
    && (forall k :: k in receipts <==> DecidedIn(claims, k))
    && (forall k :: k in receipts && k in claims && IsDecided(claims[k]) ==>
          receipts[k] == Receipts.ReceiptFor(Spec.VerdictOf(claims[k])))
  }

  ghost predicate SequencesDecided(sequences: map<SequenceNo, Key>, claims: map<Key, Claim>) {
    forall q :: q in sequences ==> DecidedIn(claims, sequences[q])
  }

  ghost predicate DevicesPaired(devices: map<DeviceId, Device>, envelopes: map<DeviceId, OfflineEnvelope>) {
    && devices.Keys == envelopes.Keys
    && forall d :: d in envelopes ==> envelopes[d].allowance >= 0
  }

  ghost predicate Consistent(db: Database) {
    && Ledger.BooksBalance(db)
    && HOUSE_VPA in db.accounts
    && ClaimsMatchEntries(db.claims, db.entries)
    && ReceiptsMatchClaims(db.receipts, db.claims)
    && SequencesDecided(db.sequences, db.claims)
    && DevicesPaired(db.devices, db.envelopes)
  }

  /** Exactly one PAYMENT entry has the key of a settled claim, and none that of any other. */
  lemma OneEntryPerSettledClaim(db: Database, k: Key)
    requires Consistent(db)
    ensures k in db.claims && db.claims[k].state == Settled <==>
            exists e :: e in db.entries && db.entries[e] == Entry(k, PaymentEntry)
    ensures forall e, f ::
              e in db.entries && f in db.entries && db.entries[e] == db.entries[f] == Entry(k, PaymentEntry) ==> e == f
    ensures k in db.claims && db.claims[k].state == Settled ==>
              db.claims[k].entry.Some? && Lookup(db.entries, db.claims[k].entry.value) == Some(Entry(k, PaymentEntry))
  {}

  /** The request of a delivery that holds its claim, with what it has read so far. */
  ghost predicate Sensible(db: Database, visible: set<Vpa>, req: Request, auth: Authorization, entry: nat) {
    && Instruction.WellFormed(PaymentOf(req)) && req.key == KeyOf(req.intent)
    && visible <= db.accounts.Keys
    && (auth.Allowed? ==> auth.limits.device == req.device && req.device in db.envelopes)
    && (auth.Denied? ==> auth.code != SequenceReuse && auth.code != RetryLater && !Spec.UsesNumber(auth.code))
    && entry >= 1 && entry !in db.entries
  }

  /** An undecided payment has left no trace: no receipt, no entry, no sequence number. */
  lemma UndecidedLeavesNoTrace(db: Database, req: Request)
    requires Consistent(db) && Instruction.WellFormed(PaymentOf(req)) && req.key == KeyOf(req.intent)
    requires !DecidedIn(db.claims, req.key)
    ensures req.key !in db.receipts
    ensures !KeyTaken(db.entries, req.key)
    ensures forall q :: q in db.sequences ==> db.sequences[q] != req.key
  {
    hide Ledger.BooksBalance, Instruction.WellFormed, Instruction.IsTopUpKey;
    Instruction.KeyIsNotATopUp(PaymentOf(req));
  }

  /** A verdict's writes so far differ from the tables only where that verdict may make them differ. */
  ghost predicate Carried(db: Database, planned: Database, req: Request, entry: nat, verdict: Verdict) {
    var p, q := PaymentOf(req), SequenceOf(req);
    match verdict
    case Refuse(code, _) =>
      if code == SequenceReuse then
        && q in db.sequences && db.sequences[q] != req.key && req.device in db.devices
        && planned == db.(devices := Revoke(db.devices, req.device, SequenceReusedForAnother(p.deviceSequence)))
      else if Spec.UsesNumber(code) then
        q !in db.sequences && planned == db.(sequences := db.sequences[q := req.key])
      else planned == db
    case Settle(id) =>
      && id == entry && q !in db.sequences && p.senderVpa in db.accounts && p.receiverVpa in db.accounts
      && !Ledger.Overdrawn(db.accounts[p.senderVpa], -p.amountPaise)
      && req.device in db.envelopes && db.envelopes[req.device].allowance >= p.amountPaise
      && planned == db.(
           accounts := Ledger.Paid(db.accounts, p.senderVpa, p.receiverVpa, p.amountPaise),
           entries := db.entries[entry := Entry(req.key, PaymentEntry)],
           postings := db.postings + Ledger.TransferPostings(p.senderVpa, p.receiverVpa, p.amountPaise, entry),
           envelopes := db.envelopes[req.device := SpentRow(db.envelopes, req.device, p.amountPaise)],
           sequences := db.sequences[q := req.key])
  }

  ghost predicate PlanShape(db: Database, req: Request, entry: nat, plan: Plan) {
    match plan
    case WillAbort(_) => true
    case WillRefuse(planned, code, detail) => Carried(db, planned, req, entry, Refuse(code, detail))
    case WillSettle(planned, id) => Carried(db, planned, req, entry, Settle(id))
  }

  /** All that the transfer and the allowance can end in. */
  lemma MoneyPlan(db: Database, unique: bool, visible: set<Vpa>, req: Request, entry: nat)
    requires Ledger.BooksBalance(db) && Instruction.WellFormed(PaymentOf(req)) && visible <= db.accounts.Keys
    ensures var p := PaymentOf(req);
            PlanMoney(db, unique, visible, req, entry) ==
            match Ledger.TransferResult(db, unique, visible, req.key, p.senderVpa, p.receiverVpa, p.amountPaise, entry)
            case Ok(posted) =>
              if req.device in db.envelopes && db.envelopes[req.device].allowance >= p.amountPaise
              then WillSettle(posted.(envelopes :=
                db.envelopes[req.device := SpentRow(db.envelopes, req.device, p.amountPaise)]), entry)
              else WillAbort(AllowanceGone(req.device, p.amountPaise))
            case Err(NotEnough(v, balance, needs)) => WillRefuse(db, InsufficientFunds, Shortfall(v, balance, needs))
            case Err(MissingAccount(v)) => WillRefuse(db, UnknownAccount, NoSuchAccount(v))
            case Err(_) => WillAbort(DatabaseError)
  {
    hide Ledger.Post;
    var p := PaymentOf(req);
    Ledger.TransferMeaning(db, unique, visible, req.key, p.senderVpa, p.receiverVpa, p.amountPaise, entry);
  }

  lemma PlanHasShape(db: Database, unique: bool, visible: set<Vpa>, req: Request, auth: Authorization, entry: nat)
    requires Consistent(db) && Sensible(db, visible, req, auth, entry) && !DecidedIn(db.claims, req.key)
    ensures PlanShape(db, req, entry, MakePlan(db, unique, visible, req, auth, entry))
  {
    hide Ledger.Post, PlanMoney, Instruction.WellFormed, FreshnessProblem, ClaimsMatchEntries, ReceiptsMatchClaims;
    UndecidedLeavesNoTrace(db, req);
    var recorded := db.(sequences := RecordSequence(db.sequences, SequenceOf(req), req.key).0);
    BooksIgnoreTheRest(db, recorded);
    MoneyPlan(recorded, unique, visible, req, entry);
  }

  /** A committed decision has carried out its verdict, and then written the receipt and the claim. */
  lemma CommittedMeansCarried(db: Database, unique: bool, visible: set<Vpa>, req: Request, auth: Authorization,
                              entry: nat, db': Database, verdict: Verdict)
      returns (planned: Database)
    requires Consistent(db) && Sensible(db, visible, req, auth, entry)
    requires Decide(db, unique, visible, req, auth, entry) == Committed(db', verdict)
    ensures HeldBy(db.claims, req.key, req.holder) && Carried(db, planned, req, entry, verdict)
    ensures req.key !in db.receipts && !KeyTaken(db.entries, req.key)
    ensures db' == planned.(
              receipts := db.receipts[req.key := Receipts.ReceiptFor(verdict)],
              claims := db.claims[req.key := DecidedRow(req.holder, verdict)])
  {
    hide Ledger.BooksBalance, MakePlan, ClaimsMatchEntries, ReceiptsMatchClaims, Sensible, Carried, Consistent;
    var plan := MakePlan(db, unique, visible, req, auth, entry);
    planned := if plan.WillAbort? then db else plan.db;
    PlanLeavesClaims(db, unique, visible, req, auth, entry);
    SensibleRequests(db, visible, req, auth, entry);
    UndecidedLeavesNoTrace(db, req);
    PlanHasShape(db, unique, visible, req, auth, entry);
  }

  lemma SensibleRequests(db: Database, visible: set<Vpa>, req: Request, auth: Authorization, entry: nat)
    requires Sensible(db, visible, req, auth, entry)
    ensures Instruction.WellFormed(PaymentOf(req)) && req.key == KeyOf(req.intent) && entry >= 1
            && entry !in db.entries
  {}

  lemma PlanLeavesClaims(db: Database, unique: bool, visible: set<Vpa>, req: Request, auth: Authorization, entry: nat)
    ensures match MakePlan(db, unique, visible, req, auth, entry)
            case WillAbort(_) => true
            case WillRefuse(planned, _, _) => planned.claims == db.claims && planned.receipts == db.receipts
            case WillSettle(planned, _) => planned.claims == db.claims && planned.receipts == db.receipts
  {
    hide Ledger.Precheck, Ledger.MoveAll, FreshnessProblem, LimitProblem;
  }

  lemma BooksIgnoreTheRest(a: Database, b: Database)
    requires Ledger.BooksBalance(a)
    requires a.accounts == b.accounts && a.entries == b.entries && a.postings == b.postings
    ensures Ledger.BooksBalance(b)
  {}

  /** A settlement keeps the books. */
  lemma SettlementKeepsBooks(db: Database, req: Request, entry: nat, planned: Database)
    requires Ledger.BooksBalance(db) && Instruction.WellFormed(PaymentOf(req)) && entry !in db.entries
    requires Carried(db, planned, req, entry, Settle(entry))
    ensures Ledger.BooksBalance(planned)
  {
    hide Ledger.Post;
    var p, visible := PaymentOf(req), db.accounts.Keys;
    Ledger.TransferMeaning(db, false, visible, req.key, p.senderVpa, p.receiverVpa, p.amountPaise, entry);
    Ledger.PostKeepsBooks(db, false, visible, req.key, PaymentEntry,
                          Ledger.TransferMovements(p.senderVpa, p.receiverVpa, p.amountPaise), entry);
    var posted := Ledger.Post(db, false, visible, req.key, PaymentEntry,
      Ledger.TransferMovements(p.senderVpa, p.receiverVpa, p.amountPaise), entry).value;
    BooksIgnoreTheRest(posted, planned);
  }

  lemma ClaimsAfter(claims: map<Key, Claim>, entries: map<nat, Entry>, entries': map<nat, Entry>,
                    receipts: map<Key, Receipt>, req: Request, verdict: Verdict)
    requires ClaimsMatchEntries(claims, entries) && ReceiptsMatchClaims(receipts, claims)
    requires HeldBy(claims, req.key, req.holder)
    requires match verdict
             case Settle(e) => e >= 1 && e !in entries && entries' == entries[e := Entry(req.key, PaymentEntry)]
             case Refuse(_, _) => entries' == entries
    ensures var claims' := claims[req.key := DecidedRow(req.holder, verdict)];
            && ClaimsMatchEntries(claims', entries')
            && ReceiptsMatchClaims(receipts[req.key := Receipts.ReceiptFor(verdict)], claims')
  {}

  lemma SequencesAfter(sequences: map<SequenceNo, Key>, sequences': map<SequenceNo, Key>, claims: map<Key, Claim>,
                       req: Request, verdict: Verdict)
    requires SequencesDecided(sequences, claims) && HeldBy(claims, req.key, req.holder)
    requires sequences' == sequences || sequences' == sequences[SequenceOf(req) := req.key]
    ensures SequencesDecided(sequences', claims[req.key := DecidedRow(req.holder, verdict)])
  {
    assert forall q :: q in sequences ==> DecidedIn(claims, sequences[q]);
  }

  lemma RestAfter(db: Database, planned: Database, req: Request, entry: nat, verdict: Verdict)
    requires Carried(db, planned, req, entry, verdict)
    requires HOUSE_VPA in db.accounts && DevicesPaired(db.devices, db.envelopes)
    ensures HOUSE_VPA in planned.accounts && DevicesPaired(planned.devices, planned.envelopes)
    ensures planned.sequences == db.sequences || planned.sequences == db.sequences[SequenceOf(req) := req.key]
    ensures verdict.Refuse? ==>
              planned.accounts == db.accounts && planned.entries == db.entries && planned.postings == db.postings
    ensures verdict.Settle? ==>
              verdict == Settle(entry) && planned.entries == db.entries[entry := Entry(req.key, PaymentEntry)]
  {
    hide Ledger.Overdrawn, Ledger.TransferPostings;
  }

  /** A committed decision leaves the tables consistent. */
  lemma DecisionKeepsConsistency(db: Database, unique: bool, visible: set<Vpa>, req: Request, auth: Authorization,
                                 entry: nat, db': Database, verdict: Verdict)
    requires Consistent(db) && Sensible(db, visible, req, auth, entry)
    requires Decide(db, unique, visible, req, auth, entry) == Committed(db', verdict)
    ensures Consistent(db')
  {
    hide Ledger.BooksBalance, ClaimsMatchEntries, ReceiptsMatchClaims, SequencesDecided, DevicesPaired, Carried,
      Decide, Sensible, DecidedRow, HeldBy, Receipts.ReceiptFor;
    var planned := CommittedMeansCarried(db, unique, visible, req, auth, entry, db', verdict);
    SensibleRequests(db, visible, req, auth, entry);
    RestAfter(db, planned, req, entry, verdict);
    SequencesAfter(db.sequences, planned.sequences, db.claims, req, verdict);
    ClaimsAfter(db.claims, db.entries, planned.entries, db.receipts, req, verdict);
    if verdict.Settle? {
      SettlementKeepsBooks(db, req, entry, planned);
      BooksIgnoreTheRest(planned, db');
    } else {
      BooksIgnoreTheRest(db, db');
    }
  }

  lemma CarriedPays(db: Database, planned: Database, db': Database, req: Request, entry: nat)
    requires Carried(db, planned, req, entry, Settle(entry)) && !KeyTaken(db.entries, req.key) && entry !in db.entries
    requires db' == planned.(receipts := db'.receipts, claims := db'.claims)
    ensures Spec.Pays(Spec.View(db), Spec.View(db'), req, entry)
  {
    hide Spec.Decisions, Ledger.Paid, Ledger.TransferPostings;
  }

  lemma CarriedRefuses(db: Database, planned: Database, db': Database, req: Request, entry: nat, code: Code,
                       detail: Detail)
    requires Carried(db, planned, req, entry, Refuse(code, detail))
    requires db' == planned.(receipts := db'.receipts, claims := db'.claims)
    ensures Spec.Refuses(Spec.View(db), Spec.View(db'), req, code)
  {
    hide Spec.Decisions;
  }

  lemma CarriedIsOneStep(db: Database, planned: Database, db': Database, req: Request, entry: nat, verdict: Verdict)
    requires Carried(db, planned, req, entry, verdict) && HeldBy(db.claims, req.key, req.holder)
    requires req.key !in db.receipts && !KeyTaken(db.entries, req.key) && entry !in db.entries
    requires db' == planned.(
               receipts := db.receipts[req.key := Receipts.ReceiptFor(verdict)],
               claims := db.claims[req.key := DecidedRow(req.holder, verdict)])
    ensures Spec.DecidesOnce(Spec.View(db), Spec.View(db'), req, verdict)
  {
    hide DecidedRow, Receipts.ReceiptFor, Spec.Pays, Spec.Refuses, KeyTaken;
    DecisionsAfter(db.claims, req.key, req.holder, verdict);
    match verdict
    case Settle(id) => CarriedPays(db, planned, db', req, entry);
    case Refuse(code, detail) => CarriedRefuses(db, planned, db', req, entry, code, detail);
  }

  lemma DecisionsAfter(claims: map<Key, Claim>, key: Key, holder: Holder, verdict: Verdict)
    ensures Spec.Decisions(claims[key := DecidedRow(holder, verdict)]) == Spec.Decisions(claims)[key := verdict]
  {}

  /** A committed decision is the one atomic step of the specification. */
  lemma DecisionIsOneStep(db: Database, unique: bool, visible: set<Vpa>, req: Request, auth: Authorization, entry: nat,
                          db': Database, verdict: Verdict)
    requires Consistent(db) && Sensible(db, visible, req, auth, entry)
    requires Decide(db, unique, visible, req, auth, entry) == Committed(db', verdict)
    ensures Spec.DecidesOnce(Spec.View(db), Spec.View(db'), req, verdict)
    ensures db'.claims == db.claims[req.key := DecidedRow(req.holder, verdict)]
    ensures db'.fingerprints == db.fingerprints
  {
    hide Consistent, Sensible, Decide, Spec.DecidesOnce, Spec.View, HeldBy, DecidedRow;
    var planned := CommittedMeansCarried(db, unique, visible, req, auth, entry, db', verdict);
    SensibleRequests(db, visible, req, auth, entry);
    CarriedIsOneStep(db, planned, db', req, entry, verdict);
  }

  // ---------------------------------------------------------------------------------------------
  // The other writes
  // ---------------------------------------------------------------------------------------------

  ghost predicate SameDecisions(a: map<Key, Claim>, b: map<Key, Claim>) {
    && (forall k :: DecidedIn(a, k) <==> DecidedIn(b, k))
    && (forall k :: DecidedIn(a, k) ==> k in b && b[k] == a[k])
    && (forall k :: k in b ==> WellShaped(b[k]))
  }

  lemma ClaimingKeepsDecisions(claims: map<Key, Claim>, claims': map<Key, Claim>, key: Key, holder: Holder, now: int,
                               leaseMs: int)
    requires forall k :: k in claims ==> WellShaped(claims[k])
    requires claims' == Released(claims, key, holder) || Upsert(claims, key, holder, now, leaseMs) == Some(claims')
    ensures SameDecisions(claims, claims')
  {}

  lemma SameDecisionsLookTheSame(a: map<Key, Claim>, b: map<Key, Claim>)
    requires SameDecisions(a, b)
    ensures Spec.Decisions(b) == Spec.Decisions(a)
  {
    hide WellShaped, Spec.VerdictOf;
    forall k
      ensures k in Spec.Decisions(a) <==> k in Spec.Decisions(b)
      ensures k in Spec.Decisions(a) ==> Spec.Decisions(a)[k] == Spec.Decisions(b)[k]
    {
      assert DecidedIn(a, k) <==> DecidedIn(b, k);
    }
  }

  lemma SameDecisionsMatch(db: Database, claims: map<Key, Claim>)
    requires ClaimsMatchEntries(db.claims, db.entries) && SameDecisions(db.claims, claims)
    ensures Spec.Decisions(claims) == Spec.Decisions(db.claims)
    ensures ClaimsMatchEntries(claims, db.entries)
    ensures ReceiptsMatchClaims(db.receipts, db.claims) ==> ReceiptsMatchClaims(db.receipts, claims)
    ensures SequencesDecided(db.sequences, db.claims) ==> SequencesDecided(db.sequences, claims)
  {
    hide Receipts.ReceiptFor, Spec.VerdictOf, Instruction.IsTopUpKey, WellShaped, Spec.Decisions;
    SameDecisionsLookTheSame(db.claims, claims);
    assert forall k :: k in claims && claims[k].state == Settled ==> DecidedIn(claims, k);
    assert forall k :: k in db.claims && db.claims[k].state == Settled ==> DecidedIn(db.claims, k);
  }

  /** Taking, taking over or releasing a claim is invisible to the specification. */
  lemma ClaimingIsInvisible(db: Database, claims: map<Key, Claim>, key: Key, holder: Holder, now: int, leaseMs: int)
    requires Consistent(db)
    requires claims == Released(db.claims, key, holder) || Upsert(db.claims, key, holder, now, leaseMs) == Some(claims)
    ensures Consistent(db.(claims := claims)) && Spec.View(db.(claims := claims)) == Spec.View(db)
    ensures SameDecisions(db.claims, claims)
  {
    ClaimsAreWellShaped(db);
    hide Ledger.BooksBalance, ClaimsMatchEntries, ReceiptsMatchClaims, SequencesDecided, DevicesPaired, Upsert,
      Released, SameDecisions, WellShaped;
    ClaimingKeepsDecisions(db.claims, claims, key, holder, now, leaseMs);
    SameDecisionsMatch(db, claims);
    BooksIgnoreTheRest(db, db.(claims := claims));
  }

  lemma ClaimsAreWellShaped(db: Database)
    requires Consistent(db)
    ensures forall k :: k in db.claims ==> WellShaped(db.claims[k])
  {
    hide Ledger.BooksBalance, WellShaped;
  }

  lemma UnchangedDecisions(db: Database)
    requires Consistent(db)
    ensures SameDecisions(db.claims, db.claims)
  {
    hide Ledger.BooksBalance, WellShaped;
    ClaimsAreWellShaped(db);
  }

  lemma FingerprintIsInvisible(db: Database, fingerprints: map<Fingerprint, Key>)
    requires Consistent(db)
    ensures Consistent(db.(fingerprints := fingerprints))
    ensures Spec.View(db.(fingerprints := fingerprints)) == Spec.View(db)
  {
    hide Ledger.BooksBalance, ClaimsMatchEntries, ReceiptsMatchClaims, SequencesDecided, DevicesPaired;
    BooksIgnoreTheRest(db, db.(fingerprints := fingerprints));
  }

  /** What a fund that goes through has written. */
  lemma FundWrites(db: Database, unique: bool, reference: string, vpa: Vpa, amount: int, entry: nat, db': Database)
    requires Spec.Operate(db, unique, Spec.Fund(reference, vpa, amount), entry) == Some(db')
    ensures db'.accounts.Keys == db.accounts.Keys && db.postings <= db'.postings
    ensures forall v :: v in db.accounts ==> db'.accounts[v].kind == db.accounts[v].kind
    ensures db'.entries == db.entries[entry := Entry(Instruction.TopUpKey(reference), TopUpEntry)]
    ensures db' == db.(accounts := db'.accounts, entries := db'.entries, postings := db'.postings)
    ensures Ledger.Post(db, unique, db.accounts.Keys, Instruction.TopUpKey(reference), TopUpEntry,
                        Ledger.FundMovements(vpa, amount), entry) == Ok(db')
  {
    hide Ledger.Precheck, Ledger.FundMovements, Instruction.TopUpKey;
  }

  lemma TopUpEntryMatches(claims: map<Key, Claim>, entries: map<nat, Entry>, entry: nat, key: Key)
    requires ClaimsMatchEntries(claims, entries) && entry >= 1 && entry !in entries && Instruction.IsTopUpKey(key)
    ensures ClaimsMatchEntries(claims, entries[entry := Entry(key, TopUpEntry)])
  {}

  lemma FundingKeepsConsistency(db: Database, unique: bool, reference: string, vpa: Vpa, amount: int, entry: nat,
                                db': Database)
    requires Consistent(db) && entry >= 1 && entry !in db.entries
    requires Spec.Operate(db, unique, Spec.Fund(reference, vpa, amount), entry) == Some(db')
    ensures Consistent(db') && Spec.Operates(Spec.View(db), Spec.View(db'))
  {
    hide Ledger.BooksBalance, ReceiptsMatchClaims, SequencesDecided, DevicesPaired, Ledger.Post, Spec.Operate,
      ClaimsMatchEntries;
    TopUpEntryMatches(db.claims, db.entries, entry, Instruction.TopUpKey(reference));
    FundWrites(db, unique, reference, vpa, amount, entry, db');
    Ledger.PostKeepsBooks(db, unique, db.accounts.Keys, Instruction.TopUpKey(reference), TopUpEntry,
                          Ledger.FundMovements(vpa, amount), entry);
  }

  /** A fund whose rows exist and whose reference is new credits the account from the house. */
  lemma FundSucceeds(db: Database, unique: bool, reference: string, vpa: Vpa, amount: int, entry: nat)
      returns (db': Database)
    requires HOUSE_VPA in db.accounts && vpa in db.accounts && vpa != HOUSE_VPA && amount > 0
    requires db.accounts[HOUSE_VPA].kind == House || db.accounts[HOUSE_VPA].balance >= amount
    requires db.accounts[vpa].kind == House || db.accounts[vpa].balance >= 0
    requires unique ==> !KeyTaken(db.entries, Instruction.TopUpKey(reference))
    ensures Spec.Operate(db, unique, Spec.Fund(reference, vpa, amount), entry) == Some(db')
    ensures db' == db.(accounts := Ledger.Paid(db.accounts, HOUSE_VPA, vpa, amount),
                       entries := db.entries[entry := Entry(Instruction.TopUpKey(reference), TopUpEntry)],
                       postings := db'.postings)
  {
    hide KeyTaken, Instruction.TopUpKey;
    var ms := Ledger.FundMovements(vpa, amount);
    assert ms == Ledger.TransferMovements(HOUSE_VPA, vpa, amount);
    Ledger.SumsOfTransfer(HOUSE_VPA, vpa, amount);
    Ledger.TransferLoop(db.accounts, HOUSE_VPA, vpa, amount);
    assert Ledger.Names(ms) == [HOUSE_VPA, vpa];
    assert Ledger.Precheck(db.accounts, db.accounts.Keys, ms) == None;
    db' := Ledger.Post(db, unique, db.accounts.Keys, Instruction.TopUpKey(reference), TopUpEntry, ms, entry).value;
  }

  lemma OpeningKeepsBooks(db: Database, vpa: Vpa)
    requires Ledger.BooksBalance(db) && vpa !in db.accounts
    ensures Ledger.BooksBalance(db.(accounts := db.accounts[vpa := Account(Customer, 0)]))
  {
    AbsentAccountSumsToZero(db.postings, vpa);
  }

  lemma {:induction false} AbsentAccountSumsToZero(ps: seq<Posting>, v: Vpa)
    requires forall i :: 0 <= i < |ps| ==> ps[i].vpa != v
    ensures Ledger.AccountSum(ps, v) == 0
  {
    if ps != [] {
      AbsentAccountSumsToZero(ps[..|ps| - 1], v);
    }
  }

  /** Every operator's transaction keeps the tables consistent and decides nothing. */
  lemma OperatingKeepsConsistency(db: Database, unique: bool, act: Spec.OperatorAct, entry: nat, db': Database)
    requires Consistent(db) && entry >= 1 && entry !in db.entries
    requires Spec.Operate(db, unique, act, entry) == Some(db')
    ensures Consistent(db') && Spec.Operates(Spec.View(db), Spec.View(db'))
    ensures forall e :: e in db'.entries ==> e in db.entries || e == entry
  {
    hide Consistent, Ledger.Post, Spec.Operates, Spec.View, Spec.Operate;
    match act
    case OpenAccount(vpa) => OpeningKeepsConsistency(db, unique, vpa, entry, db');
    case Fund(reference, vpa, amount) =>
      FundWrites(db, unique, reference, vpa, amount, entry, db');
      FundingKeepsConsistency(db, unique, reference, vpa, amount, entry, db');
    case _ => RegistryActKeepsConsistency(db, unique, act, entry, db');
  }

  lemma OpeningKeepsConsistency(db: Database, unique: bool, vpa: Vpa, entry: nat, db': Database)
    requires Consistent(db) && Spec.Operate(db, unique, Spec.OpenAccount(vpa), entry) == Some(db')
    ensures Consistent(db') && Spec.Operates(Spec.View(db), Spec.View(db')) && db'.entries == db.entries
  {
    hide Ledger.BooksBalance, ClaimsMatchEntries, ReceiptsMatchClaims, SequencesDecided;
    OpeningKeepsBooks(db, vpa);
  }

  lemma RegistryActKeepsConsistency(db: Database, unique: bool, act: Spec.OperatorAct, entry: nat, db': Database)
    requires Consistent(db) && Spec.Operate(db, unique, act, entry) == Some(db') && !act.OpenAccount? && !act.Fund?
    ensures Consistent(db') && Spec.Operates(Spec.View(db), Spec.View(db')) && db'.entries == db.entries
  {
    hide Ledger.BooksBalance, ClaimsMatchEntries, ReceiptsMatchClaims, SequencesDecided, Ledger.Post;
    BooksIgnoreTheRest(db, db');
  }

  // ---------------------------------------------------------------------------------------------
  // Nothing is stranded
  // ---------------------------------------------------------------------------------------------

  lemma PlanAloneDecides(db: Database, unique: bool, req: Request, entry: nat)
    requires Ledger.BooksBalance(db) && Instruction.WellFormed(PaymentOf(req)) && !KeyTaken(db.entries, req.key)
    requires forall q :: q in db.sequences ==> db.sequences[q] != req.key
    ensures !MakePlan(db, unique, db.accounts.Keys, req, AuthorizeRequest(db, req), entry).WillAbort?
  {
    hide Ledger.Post, PlanMoney, FreshnessProblem, Instruction.WellFormed;
    var recorded := db.(sequences := RecordSequence(db.sequences, SequenceOf(req), req.key).0);
    BooksIgnoreTheRest(db, recorded);
    hide Ledger.BooksBalance;
    MoneyPlan(recorded, unique, db.accounts.Keys, req, entry);
  }

  /** With nothing beside it, a delivery that holds its claim always reaches a decision. */
  lemma DecidingAloneSucceeds(db: Database, unique: bool, req: Request, entry: nat)
    requires Consistent(db) && Instruction.WellFormed(PaymentOf(req)) && req.key == KeyOf(req.intent)
    requires HeldBy(db.claims, req.key, req.holder)
    ensures DecideAlone(db, unique, req, entry).Committed?
  {
    UndecidedLeavesNoTrace(db, req);
    PlanLeavesClaims(db, unique, db.accounts.Keys, req, AuthorizeRequest(db, req), entry);
    PlanAloneDecides(db, unique, req, entry);
    hide MakePlan, ClaimsMatchEntries, ReceiptsMatchClaims, Ledger.BooksBalance, Instruction.WellFormed;
  }

  /** What an uninterrupted decision under a held claim leaves behind. */
  lemma DecidedAlone(db: Database, unique: bool, req: Request, entry: nat) returns (db': Database, verdict: Verdict)
    requires Consistent(db) && Instruction.WellFormed(PaymentOf(req)) && req.key == KeyOf(req.intent)
    requires HeldBy(db.claims, req.key, req.holder) && entry >= 1 && entry !in db.entries
    ensures DecideAlone(db, unique, req, entry) == Committed(db', verdict)
    ensures Consistent(db') && db'.fingerprints == db.fingerprints
    ensures db'.claims == db.claims[req.key := DecidedRow(req.holder, verdict)]
  {
    var decision := DecideAlone(db, unique, req, entry);
    AloneIsSensible(db, req, entry);
    hide Consistent, Sensible, Decide, Spec.DecidesOnce, Spec.View, HeldBy, DecidedRow, Instruction.WellFormed;
    DecidingAloneSucceeds(db, unique, req, entry);
    db', verdict := decision.db, decision.verdict;
    DecisionKeepsConsistency(db, unique, db.accounts.Keys, req, AuthorizeRequest(db, req), entry, db', verdict);
    DecisionIsOneStep(db, unique, db.accounts.Keys, req, AuthorizeRequest(db, req), entry, db', verdict);
  }

  lemma AloneIsSensible(db: Database, req: Request, entry: nat)
    requires Consistent(db) && Instruction.WellFormed(PaymentOf(req)) && req.key == KeyOf(req.intent)
    requires entry >= 1 && entry !in db.entries
    ensures Sensible(db, db.accounts.Keys, req, AuthorizeRequest(db, req), entry)
  {
    hide ClaimsMatchEntries, ReceiptsMatchClaims, Ledger.BooksBalance, Instruction.WellFormed;
  }

  /**
   * Decided now exactly if the claim could be taken or was decided; announced, and the copy let go,
   * exactly if decided; and the original reply for the delivery that took the claim.
   */
  ghost predicate DecidedUnlessHeld(claims: map<Key, Claim>, at: int, key: Key, claims': map<Key, Claim>,
                                    reply: Reply) {
    && (Takeable(claims, key, at) || DecidedIn(claims, key) <==> DecidedIn(claims', key))
    && (DecidedIn(claims', key) <==> Announces(reply))
    && (Announces(reply) <==> !reply.bridgeShouldRetain)
    && (Takeable(claims, key, at) ==> reply == Original(key, Spec.VerdictOf(Row(claims', key))))
  }

  lemma OpenedIsWellFormed(w: World, wire: bytes, ring: KeyRing.Ring, intent: Intent)
    requires Sound(w) && w.open(wire, ring) == Opened(intent)
    ensures Instruction.WellFormed(intent.instruction)
  {
    assert Instruction.WellFormed(w.open(wire, ring).intent.instruction);
  }

  lemma TakenAndDecided(claims: map<Key, Claim>, at: int, key: Key, holder: Holder, verdict: Verdict,
                        claims': map<Key, Claim>)
    requires Takeable(claims, key, at) && Row(claims', key) == DecidedRow(holder, verdict) && key in claims'
    ensures DecidedUnlessHeld(claims, at, key, claims', Original(key, verdict))
  {}

  lemma NotTaken(claims: map<Key, Claim>, at: int, key: Key)
    requires !Takeable(claims, key, at)
    ensures DecidedUnlessHeld(claims, at, key, claims,
              if DecidedIn(claims, key) then Replay(key, Row(claims, key)) else HeldReply(key))
  {}

  /**
   * From any consistent tables, one uninterrupted delivery of a readable envelope ends in a decision
   * on the payment inside it exactly when no other delivery's lease on it is still running, and the
   * bridge is told to keep its copy exactly when no decision was reached.
   */
  lemma NoPaymentIsStranded(w: World, db: Database, d: Delivery, intent: Intent, entry: nat)
    requires Sound(w) && Consistent(db) && entry >= 1 && entry !in db.entries
    requires w.open(d.wire, d.ring) == Opened(intent)
    requires KnownDecision(db, w.fingerprint(d.wire)) == None
    ensures var (db', reply) := Deliver(w, db, d, entry, Acknowledged);
            Consistent(db') && DecidedUnlessHeld(db.claims, d.dbNow, KeyOf(intent), db'.claims, reply)
  {
    hide Consistent, Settlement, Deliver, Spec.View, Instruction.WellFormed, Sound, KeyOf, Noted, DecidedUnlessHeld,
      DecidedRow, Original, Takeable;
    OpenedIsWellFormed(w, d.wire, d.ring, intent);
    var key := KeyOf(intent);
    var noted := Noted(w, db, d.wire, key);
    DeliveryUnfolds(w, db, d, intent, entry, Acknowledged);
    FingerprintIsInvisible(db, noted.fingerprints);
    if Takeable(db.claims, key, d.dbNow) {
      var db', verdict := TakenClaimIsDecided(w, noted, d, intent, entry);
      TakenAndDecided(db.claims, d.dbNow, key, d.holder, verdict, db'.claims);
    } else {
      NotTaken(db.claims, d.dbNow, key);
    }
  }

  /**
   * A delivery that meets an undecided claim decides and changes nothing, and is told to keep its copy, exactly
   * while the lease on it runs; with any end to its commit.
   */
  lemma LiveLeaseIsLeftAlone(w: World, db: Database, d: Delivery, intent: Intent, entry: nat, fate: CommitFate,
                             claim: Claim)
    requires w.open(d.wire, d.ring) == Opened(intent)
    requires Lookup(db.claims, KeyOf(intent)) == Some(claim) && claim.state == InProgress && claim.lease.Some?
    requires forall k :: Lookup(db.fingerprints, w.fingerprint(d.wire)) == Some(k) ==> k == KeyOf(intent)
    ensures var (db', reply) := Deliver(w, db, d, entry, fate);
            if claim.lease.value >= d.dbNow then
              && db' == db.(fingerprints := db.fingerprints[w.fingerprint(d.wire) := KeyOf(intent)])
              && reply == Reply(ReplyInProgress, ClaimHeld, Plain("another delivery is deciding this payment"),
                            Some(KeyOf(intent)), None, false, true)
            else reply.outcome != ReplyInProgress
  {
    hide Settlement, KeyOf, TakenBy;
    DeliveryUnfolds(w, db, d, intent, entry, fate);
    var claims := TakenBy(db.claims, KeyOf(intent), d.holder, d.dbNow + DEFAULT_LEASE_MS);
    SettlementIsNoWait(w, Noted(w, db, d.wire, KeyOf(intent)).(claims := claims), d, intent, entry, fate);
  }

  /** Bytes noted for a decided payment are answered from its row, whichever keys the process has. */
  lemma KnownBytesAreReplayed(w: World, db: Database, d: Delivery, entry: nat, fate: CommitFate, key: Key)
    requires Lookup(db.fingerprints, w.fingerprint(d.wire)) == Some(key) && key in db.claims
    requires db.claims[key].state == Settled || db.claims[key].state == Rejected
    ensures var (db', reply) := Deliver(w, db, d, entry, fate);
            && db' == db && reply.key == Some(key) && reply.isReplay && !reply.bridgeShouldRetain
            && (reply.outcome == ReplySettled <==> db.claims[key].state == Settled)
            && (reply.outcome == ReplyRejected <==> db.claims[key].state == Rejected)
            && reply.entry == db.claims[key].entry
  {
    hide Settlement, KeyOf;
  }

  /** The first payment noted for some bytes stays, whatever is delivered and however it ends. */
  lemma FirstNoteStays(w: World, db: Database, d: Delivery, entry: nat, fate: CommitFate, fp: Fingerprint)
    requires fp in db.fingerprints
    ensures Lookup(Deliver(w, db, d, entry, fate).0.fingerprints, fp) == Some(db.fingerprints[fp])
  {
    hide Settlement, KeyOf, KnownDecision, Takeable, TakenBy, Replay, HeldReply, InvalidReply, Row, DecidedIn;
    match w.open(d.wire, d.ring)
    case Unopened(_, _) =>
    case Opened(intent) =>
      if KnownDecision(db, w.fingerprint(d.wire)).None? {
        DeliveryUnfolds(w, db, d, intent, entry, fate);
        var claims := TakenBy(db.claims, KeyOf(intent), d.holder, d.dbNow + DEFAULT_LEASE_MS);
        SettlementNotesNothing(w, Noted(w, db, d.wire, KeyOf(intent)).(claims := claims), d, intent, entry, fate);
      }
  }

  lemma SettlementNotesNothing(w: World, db: Database, d: Delivery, intent: Intent, entry: nat, fate: CommitFate)
    ensures Settlement(w, db, d, intent, entry, fate).0.fingerprints == db.fingerprints
  {
    hide MakePlan, KeyOf, Released, UpdateDecision, Receipts.Issued, AuthorizeRequest, PaymentOf;
    var req := RequestFor(w, d, intent);
    PlanNotesNothing(db, w.unique, db.accounts.Keys, req, AuthorizeRequest(db, req), entry);
  }

  lemma PlanNotesNothing(db: Database, unique: bool, visible: set<Vpa>, req: Request, auth: Authorization, entry: nat)
    ensures match MakePlan(db, unique, visible, req, auth, entry)
            case WillAbort(_) => true
            case WillRefuse(planned, _, _) => planned.fingerprints == db.fingerprints
            case WillSettle(planned, _) => planned.fingerprints == db.fingerprints
  {
    hide Ledger.Precheck, Ledger.MoveAll, FreshnessProblem, LimitProblem, RecordSequence, Revoke, Consume, MovementsOf,
      KeyTaken, Ledger.PostingsOf;
  }

  /**
   * When the end of the commit is not heard of, the reply is the same whether it was applied or not: try again.
   * If it was, the payment is decided as an acknowledged commit would have decided it; if not, nothing but the
   * note of the fingerprint is left, and the claim is free at once.
   */
  lemma WhenTheCommitIsNotHeardOf(w: World, db: Database, d: Delivery, intent: Intent, entry: nat)
    requires Sound(w) && Consistent(db) && entry >= 1 && entry !in db.entries
    requires w.open(d.wire, d.ring) == Opened(intent) && KnownDecision(db, w.fingerprint(d.wire)) == None
    requires Takeable(db.claims, KeyOf(intent), d.dbNow)
    ensures Deliver(w, db, d, entry, NotApplied)
         == (Noted(w, db, d.wire, KeyOf(intent)).(claims := db.claims - {KeyOf(intent)}), TryAgain(KeyOf(intent)))
    ensures Deliver(w, db, d, entry, AppliedButUnacknowledged)
         == (Deliver(w, db, d, entry, Acknowledged).0, TryAgain(KeyOf(intent)))
    ensures DecidedIn(Deliver(w, db, d, entry, Acknowledged).0.claims, KeyOf(intent))
  {
    hide Sound, Consistent, Deliver, KeyOf, Noted, Settlement, Takeable, HeldBy, DecidedIn, KnownDecision, TryAgain,
      Instruction.WellFormed;
    var held := TakenSettles(w, db, d, intent, entry);
    HowSettlementsEnd(w, held, d, intent, entry);
  }

  /** The tables that the transaction of a delivery begins with. */
  lemma TakenSettles(w: World, db: Database, d: Delivery, intent: Intent, entry: nat) returns (held: Database)
    requires Sound(w) && Consistent(db)
    requires w.open(d.wire, d.ring) == Opened(intent) && KnownDecision(db, w.fingerprint(d.wire)) == None
    requires Takeable(db.claims, KeyOf(intent), d.dbNow)
    ensures Consistent(held) && Instruction.WellFormed(intent.instruction)
    ensures HeldBy(held.claims, KeyOf(intent), d.holder)
    ensures held == db.(claims := held.claims, fingerprints := held.fingerprints)
    ensures held.(claims := held.claims - {KeyOf(intent)})
         == Noted(w, db, d.wire, KeyOf(intent)).(claims := db.claims - {KeyOf(intent)})
    ensures forall fate :: Deliver(w, db, d, entry, fate) == Settlement(w, held, d, intent, entry, fate)
  {
    hide Consistent, Deliver, Spec.View, Instruction.WellFormed, Sound, KeyOf, Noted, Settlement, Takeable,
      TakenBy, HeldBy, KnownDecision;
    OpenedIsWellFormed(w, d.wire, d.ring, intent);
    var key, noted := KeyOf(intent), Noted(w, db, d.wire, KeyOf(intent));
    held := noted.(claims := TakenBy(db.claims, key, d.holder, d.dbNow + DEFAULT_LEASE_MS));
    forall fate
      ensures Deliver(w, db, d, entry, fate) == Settlement(w, held, d, intent, entry, fate)
    {
      DeliveryTakes(w, db, d, intent, entry, fate);
    }
    DeliveryTakes(w, db, d, intent, entry, NotApplied);
    FingerprintIsInvisible(db, noted.fingerprints);
    TakenIsHeld(noted, key, d.holder, d.dbNow);
  }

  /** The reply to a delivery whose transaction failed, as far as the service knows. */
  function TryAgain(key: Key): Reply {
    Reply(ReplyTransient, RetryLater, DatabaseError, Some(key), None, false, true)
  }

  lemma DeliveryTakes(w: World, db: Database, d: Delivery, intent: Intent, entry: nat, fate: CommitFate)
    requires w.open(d.wire, d.ring) == Opened(intent) && KnownDecision(db, w.fingerprint(d.wire)) == None
    requires Takeable(db.claims, KeyOf(intent), d.dbNow)
    ensures var noted := Noted(w, db, d.wire, KeyOf(intent));
            && noted == db.(fingerprints := noted.fingerprints)
            && Deliver(w, db, d, entry, fate) == Settlement(w,
                 noted.(claims := TakenBy(db.claims, KeyOf(intent), d.holder, d.dbNow + DEFAULT_LEASE_MS)), d, intent,
                 entry, fate)
  {
    hide Settlement, KeyOf, Deliver, Noted, Takeable, TakenBy;
    DeliveryUnfolds(w, db, d, intent, entry, fate);
  }

  lemma HowSettlementsEnd(w: World, db: Database, d: Delivery, intent: Intent, entry: nat)
    requires Consistent(db) && Instruction.WellFormed(intent.instruction) && HeldBy(db.claims, KeyOf(intent), d.holder)
    requires entry >= 1 && entry !in db.entries
    ensures Settlement(w, db, d, intent, entry, NotApplied)
         == (db.(claims := db.claims - {KeyOf(intent)}), TryAgain(KeyOf(intent)))
    ensures Settlement(w, db, d, intent, entry, AppliedButUnacknowledged)
         == (Settlement(w, db, d, intent, entry, Acknowledged).0, TryAgain(KeyOf(intent)))
    ensures DecidedIn(Settlement(w, db, d, intent, entry, Acknowledged).0.claims, KeyOf(intent))
  {
    hide Consistent, Spec.View, Instruction.WellFormed, KeyOf, DecideAlone;
    var db', verdict := DecidedAlone(db, w.unique, RequestFor(w, d, intent), entry);
    assert Released(db'.claims, KeyOf(intent), d.holder) == db'.claims;
  }

  lemma TakenIsHeld(db: Database, key: Key, holder: Holder, now: int)
    requires Consistent(db) && Takeable(db.claims, key, now)
    ensures var taken := TakenBy(db.claims, key, holder, now + DEFAULT_LEASE_MS);
            && Consistent(db.(claims := taken)) && HeldBy(taken, key, holder)
            && taken - {key} == db.claims - {key}
  {
    hide Consistent, Spec.View, SameDecisions;
    var taken := TakenBy(db.claims, key, holder, now + DEFAULT_LEASE_MS);
    ClaimingIsInvisible(db, taken, key, holder, now, DEFAULT_LEASE_MS);
  }

  lemma SettlementIsNoWait(w: World, db: Database, d: Delivery, intent: Intent, entry: nat, fate: CommitFate)
    ensures Settlement(w, db, d, intent, entry, fate).1.outcome != ReplyInProgress
  {
    hide DecideAlone;
  }

  /** A delivery that reads its envelope: what is noted, and what follows from the claim. */
  lemma DeliveryUnfolds(w: World, db: Database, d: Delivery, intent: Intent, entry: nat, fate: CommitFate)
    requires w.open(d.wire, d.ring) == Opened(intent) && KnownDecision(db, w.fingerprint(d.wire)) == None
    ensures var key, noted := KeyOf(intent), Noted(w, db, d.wire, KeyOf(intent));
            && noted == db.(fingerprints := noted.fingerprints)
            && Deliver(w, db, d, entry, fate) ==
               if Takeable(db.claims, key, d.dbNow) then
                 Settlement(w, noted.(claims := TakenBy(db.claims, key, d.holder, d.dbNow + DEFAULT_LEASE_MS)), d,
                   intent, entry, fate)
               else (noted, if DecidedIn(db.claims, key) then Replay(key, Row(db.claims, key)) else HeldReply(key))
  {
    hide Settlement, KeyOf;
  }

  /** A claim that can be taken is taken, and the settlement that follows decides and says so. */
  lemma TakenClaimIsDecided(w: World, db: Database, d: Delivery, intent: Intent, entry: nat)
      returns (db': Database, verdict: Verdict)
    requires Consistent(db) && Instruction.WellFormed(intent.instruction) && Takeable(db.claims, KeyOf(intent), d.dbNow)
    requires entry >= 1 && entry !in db.entries
    ensures var claims := TakenBy(db.claims, KeyOf(intent), d.holder, d.dbNow + DEFAULT_LEASE_MS);
            && Settlement(w, db.(claims := claims), d, intent, entry, Acknowledged)
                == (db', Original(KeyOf(intent), verdict))
            && Consistent(db') && db'.claims == claims[KeyOf(intent) := DecidedRow(d.holder, verdict)]
  {
    hide Consistent, Decide, Spec.View, Instruction.WellFormed, SameDecisions, DecidedRow, Original;
    var claims := TakenBy(db.claims, KeyOf(intent), d.holder, d.dbNow + DEFAULT_LEASE_MS);
    ClaimingIsInvisible(db, claims, KeyOf(intent), d.holder, d.dbNow, DEFAULT_LEASE_MS);
    db', verdict := DecidedAlone(db.(claims := claims), w.unique, RequestFor(w, d, intent), entry);
  }

  /** The row of a claim that exists. */
  function Row(claims: map<Key, Claim>, key: Key): Claim {
    if key in claims then claims[key] else Claim(InProgress, "", None, None, None, None)
  }
}
