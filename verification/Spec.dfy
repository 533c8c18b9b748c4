/**
 * What settlement promises, with no claims, leases, holders, locks or transactions in sight: each
 * payment is decided once, in one step that changes everything the decision is about.
 */
module Spec {
  import opened Bytes
  import opened Wrappers
  import opened Tables
  import opened Claims
  import Ingest
  import Instruction
  import Ledger
  import Receipts
  import Registry

  datatype State = State(
    decisions: map<Key, Verdict>,
    receipts: map<Key, Receipt>,
    accounts: map<Vpa, Account>,
    entries: map<nat, Entry>,
    postings: seq<Posting>,
    devices: map<DeviceId, Device>,
    envelopes: map<DeviceId, OfflineEnvelope>,
    used: map<SequenceNo, Key>)

  function VerdictOf(claim: Claim): Verdict {
    if claim.state == Settled && claim.entry.Some? then Settle(claim.entry.value)
    else if claim.code.Some? && claim.reason.Some? then Refuse(claim.code.value, claim.reason.value)
    else Refuse(RetryLater, Blank)
  }

  function Decisions(claims: map<Key, Claim>): map<Key, Verdict> {
    map k | k in claims && IsDecided(claims[k]) :: VerdictOf(claims[k])
  }

  /** What a reader sees of the committed tables. */
  function View(db: Database): State {
    State(Decisions(db.claims), db.receipts, db.accounts, db.entries, db.postings, db.devices, db.envelopes,
        db.sequences)
  }

  /** The one step that decides a payment. */
  ghost predicate DecidesOnce(a: State, b: State, req: Ingest.Request, verdict: Verdict) {
    && req.key !in a.decisions && req.key !in a.receipts
    && b.decisions == a.decisions[req.key := verdict]
    && b.receipts == a.receipts[req.key := Receipts.ReceiptFor(verdict)]
    && match verdict
       case Settle(entry) => Pays(a, b, req, entry)
       case Refuse(code, _) => Refuses(a, b, req, code)
  }

  /** Money, allowance and sequence number move together. */
  ghost predicate Pays(a: State, b: State, req: Ingest.Request, entry: nat) {
    var p := Ingest.PaymentOf(req);
    var q := Ingest.SequenceOf(req);
    && p.senderVpa in a.accounts && p.receiverVpa in a.accounts
    && !Ledger.Overdrawn(a.accounts[p.senderVpa], -p.amountPaise)
    && b.accounts == Ledger.Paid(a.accounts, p.senderVpa, p.receiverVpa, p.amountPaise)
    && entry !in a.entries
    && (forall e :: e in a.entries ==> !(a.entries[e] == Entry(req.key, PaymentEntry)))
    && b.entries == a.entries[entry := Entry(req.key, PaymentEntry)]
    && b.postings == a.postings + Ledger.TransferPostings(p.senderVpa, p.receiverVpa, p.amountPaise, entry)
    && req.device in a.envelopes && a.envelopes[req.device].allowance >= p.amountPaise
    && b.envelopes == a.envelopes[req.device :=
        a.envelopes[req.device].(allowance := a.envelopes[req.device].allowance - p.amountPaise)]
    && q !in a.used && b.used == a.used[q := req.key]
    && b.devices == a.devices
  }

  /** Refusals that come after the sequence number has been recorded. */
  predicate UsesNumber(code: Code) {
    code == OfflineLimitExceeded || code == UnknownAccount || code == InsufficientFunds
  }

  /** A refusal moves nothing; it may use up the sequence number, and reuse revokes the device. */
  ghost predicate Refuses(a: State, b: State, req: Ingest.Request, code: Code) {
    var q := Ingest.SequenceOf(req);
    && b.accounts == a.accounts && b.entries == a.entries && b.postings == a.postings && b.envelopes == a.envelopes
    && (if code == SequenceReuse then
          && q in a.used && a.used[q] != req.key && b.used == a.used
          && req.device in b.devices && b.devices[req.device].state == Revoked
          && b.devices == Registry.Revoke(a.devices, req.device,
              SequenceReusedForAnother(Ingest.PaymentOf(req).deviceSequence))
        else
          && b.devices == a.devices
          && if UsesNumber(code) then q !in a.used && b.used == a.used[q := req.key] else b.used == a.used)
  }

  // ---------------------------------------------------------------------------------------------
  // What operators may do
  // ---------------------------------------------------------------------------------------------

  datatype OperatorAct =
    | OpenAccount(vpa: Vpa)
    | Fund(reference: string, vpa: Vpa, amount: int)
    | RegisterDevice(device: DeviceId, vpa: Vpa, publicKey: bytes, allowance: int, cap: int)
    | TopUpAllowance(device: DeviceId, amount: int)
    | RevokeDevice(device: DeviceId, reason: Detail)

  /** The tables after an operator's transaction, or None when it fails and rolls back. */
  function Operate(db: Database, unique: bool, act: OperatorAct, entry: nat): Option<Database> {
    match act
    case OpenAccount(vpa) =>
      if vpa in db.accounts then None else Some(db.(accounts := db.accounts[vpa := Account(Customer, 0)]))
    case Fund(reference, vpa, amount) => (
      if amount <= 0 then None else
      match Ledger.Post(db, unique, db.accounts.Keys, Instruction.TopUpKey(reference), TopUpEntry,
                        Ledger.FundMovements(vpa, amount), entry)
      case Ok(posted) => Some(posted)
      case Err(_) => None)
    case RegisterDevice(device, vpa, publicKey, allowance, cap) =>
      if Registry.Registrable(db.accounts, vpa, allowance, cap)
      then Some(db.(devices := Registry.RegisteredDevice(db.devices, device, vpa, publicKey),
                    envelopes := db.envelopes[device := OfflineEnvelope(allowance, cap)]))
      else None
    case TopUpAllowance(device, amount) => (
      if amount <= 0 then None else
      match Registry.TopUp(db.envelopes, device, amount)
      case Some(envelopes) => Some(db.(envelopes := envelopes))
      case None => None)
    case RevokeDevice(device, reason) => Some(db.(devices := Registry.Revoke(db.devices, device, reason)))
  }

  /** An operator's act decides no payment, issues no receipt and uses no sequence number. */
  ghost predicate Operates(a: State, b: State) {
    && b.decisions == a.decisions && b.receipts == a.receipts && b.used == a.used
    && a.accounts.Keys <= b.accounts.Keys && a.devices.Keys <= b.devices.Keys
    && (forall v :: v in a.accounts ==> b.accounts[v].kind == a.accounts[v].kind)
    && (forall v :: v in b.accounts && v !in a.accounts ==> b.accounts[v] == Account(Customer, 0))
    && (forall e :: e in a.entries ==> e in b.entries && b.entries[e] == a.entries[e])
    && (forall e :: e in b.entries && e !in a.entries ==> b.entries[e].kind == TopUpEntry)
    && a.postings <= b.postings
  }

  /** Nothing visible happens, one payment is decided, or an operator acts. */
  ghost predicate Next(a: State, b: State) {
    || a == b
    || (exists req, verdict :: DecidesOnce(a, b, req, verdict))
    || Operates(a, b)
  }
}
