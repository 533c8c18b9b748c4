/** The tables of apps/server/migrations, as values and as the store the service updates. */
module Tables {
  import opened Bytes
  import opened Wrappers

  type Vpa = string
  type Key = string
  type Holder = string
  type DeviceId = string
  type Fingerprint = string

  datatype AccountKind = Customer | House
  datatype Account = Account(kind: AccountKind, balance: int)

  datatype EntryKind = PaymentEntry | GenesisEntry | TopUpEntry
  datatype Entry = Entry(key: Key, kind: EntryKind)
  datatype Posting = Posting(entry: nat, vpa: Vpa, amount: int)

  /** The reply and reason codes of apps/server/src/ingest.js and registry.js. */
  datatype Code =
    | SettledCode
    | DeviceNotRegistered | DeviceRevoked | DeviceKeyMismatch | DeviceNotBoundToVpa | NoOfflineEnvelope
    | StaleOrFutureDated | SequenceReuse | OfflineLimitExceeded | InsufficientFunds | UnknownAccount
    | Malformed | Unsupported | UnknownServerKey | DecryptFailed | MalformedPlaintext | BadSignature
    | ClaimHeld | RetryLater

  /** One constructor for each message template, with the values written into it. */
  datatype Detail =
    | Blank
    | Plain(text: string)
    | NotRegistered(device: DeviceId)
    | StoredKeyDiffers
    | PaysFrom(device: DeviceId, vpa: Vpa)
    | NoOfflineLimits
    | PastPayerExpiry(expiresAt: int)
    | SignedMinutesAgo(minutes: int)
    | SignedInTheFuture
    | SequenceReusedForAnother(number: int)
    | DeviceReusedSequence(device: DeviceId, number: int)
    | OverCap(amount: int, cap: int)
    | OverAllowance(amount: int, allowance: int)
    | NoSuchAccount(vpa: Vpa)
    | Shortfall(vpa: Vpa, balance: int, needs: int)
    | ClaimNoLongerHeld(key: Key)
    | AllowanceGone(device: DeviceId, amount: int)
    | DatabaseError

  datatype ClaimState = InProgress | Settled | Rejected

  /** A row of idempotency_claims. */
  datatype Claim = Claim(
    state: ClaimState,
    holder: Holder,
    lease: Option<int>,
    entry: Option<nat>,
    code: Option<Code>,
    reason: Option<Detail>)

  datatype DeviceState = Active | Revoked
  datatype Device = Device(vpa: Vpa, publicKey: bytes, state: DeviceState, revokedReason: Option<Detail>)
  datatype OfflineEnvelope = OfflineEnvelope(allowance: int, cap: int)
  datatype SequenceNo = SequenceNo(device: DeviceId, number: int)

  datatype Outcome = SettledOutcome | RejectedOutcome
  datatype Receipt = Receipt(outcome: Outcome, code: Option<Code>, detail: Detail, entry: Option<nat>)

  /** Everything that has been committed. */
  datatype Database = Database(
    accounts: map<Vpa, Account>,
    entries: map<nat, Entry>,
    postings: seq<Posting>,
    claims: map<Key, Claim>,
    fingerprints: map<Fingerprint, Key>,
    devices: map<DeviceId, Device>,
    envelopes: map<DeviceId, OfflineEnvelope>,
    sequences: map<SequenceNo, Key>,
    receipts: map<Key, Receipt>)

  const HOUSE_VPA: Vpa := "house@lifafa"

  /** What the migrations leave behind: the house account and nothing else. */
  const EMPTY_DATABASE: Database :=
    Database(map[HOUSE_VPA := Account(House, 0)], map[], [], map[], map[], map[], map[], map[], map[])

  /** Is the UNIQUE idempotency key of the journal already used? */
  predicate KeyTaken(entries: map<nat, Entry>, key: Key) {
    exists id :: id in entries && entries[id].key == key
  }

  /** The tables as one connection updates them. */
  class Store {
    var accounts: map<Vpa, Account>
    var entries: map<nat, Entry>
    var postings: seq<Posting>
    var claims: map<Key, Claim>
    var fingerprints: map<Fingerprint, Key>
    var devices: map<DeviceId, Device>
    var envelopes: map<DeviceId, OfflineEnvelope>
    var sequences: map<SequenceNo, Key>
    var receipts: map<Key, Receipt>
    /** The identity sequence of journal_entries; never rolled back. */
    var nextEntry: nat

    function Tables(): Database
      reads this
    {
      Database(accounts, entries, postings, claims, fingerprints, devices, envelopes, sequences, receipts)
    }

    /** ROLLBACK: every table returns to what it held at BEGIN; the identity sequence does not. */
    method Restore(begun: Database)
      modifies this`accounts, this`entries, this`postings, this`claims, this`fingerprints,
               this`devices, this`envelopes, this`sequences, this`receipts
      ensures Tables() == begun
    {
      accounts, entries, postings := begun.accounts, begun.entries, begun.postings;
      claims, fingerprints, devices := begun.claims, begun.fingerprints, begun.devices;
      envelopes, sequences, receipts := begun.envelopes, begun.sequences, begun.receipts;
    }
  }
}
