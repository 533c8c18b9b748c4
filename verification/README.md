# Lifafa: a verified model

Lifafa moves sealed payment envelopes over a mesh of phones to a settlement service that decides each
payment once. This project models the settlement protocol, the wire formats, the sealing, the mesh and the
payer's phone in Dafny, and proves what they promise. `dafny verify dfyconfig.toml` checks all of it.

## How the model is built

**Settlement** is modelled three times over, and the three are tied together.

- `Claims`, `Ledger`, `Registry`, `Receipts` and `Ingest` hold the code's own operations: methods that update
  a `Tables.Store` row by row, each proved equal to a function on the tables. `Ingest.DecideDelivery` is one
  whole delivery, with the three ways a COMMIT can end.
- `Protocol` is the concurrent system: any number of deliveries, each at its own statement, with what it has
  read, its uncommitted writes and its row locks. A step is one SQL statement, one commit (acknowledged or
  not), one failure, crash, release, clock tick, operator transaction or key rotation. Isolation is READ
  COMMITTED: statements read committed rows and wait for row and unique-key locks that last to commit.
- `Spec` is the promise: a payment is decided once, in one step that changes money, allowance, sequence
  number, receipt and decision together.

`Isolation` proves that a transaction's reads stay true until it commits, so a commit is one atomic decision;
`Safety` and `History` carry that to every step; `Runs` states what holds over every run. `Verdicts` ties a commit to
what its own transaction read of its device and its accounts, and says in plain terms when a payment is settled and
exactly when it is refused with which code; `Progress` shows that a delivery with nothing beside it finishes, step by step; `Witness` builds runs
that show what can happen. `Deadlock` (over `Waiting`) adds operators' funds that lock their rows one at a time, and
covers the waits-for graph of deliveries and funds together. A flag in the model (`unique`) says whether the journal has
its UNIQUE idempotency key; every theorem holds with the flag off, so the claim's holder check alone gives exactly-once.

A run is an unending sequence of states and steps; where nothing more happens, the clock ticks. Each process of the
service has the key ring it last loaded in memory, so a delivery arrives with any ring that the stored keys extend;
`Composition.StoredRingsAreAllowed` says that the rings ever loaded from the key store are such rings.

**Bytes.** `Utf8`, `Canonical` and the four codecs prove printer and parser to be inverses. A *format* pairs a
reader with the values it can return and the bytes it returns each for; formats compose, and every codec's
reader is shown to accept exactly its layouts. The stateful writer and reader are classes proved against the
same functions. `Hkdf`, `Hpke` and `Sealer` build sealing over ideal primitives; `Composition` shows that the
sealer provides what the protocol's theorems assume.

**Mesh.** `Mesh` runs gossip over mutable phones; `Gossip` shows many rounds to be breadth-first search;
`Flush` uploads from bridges into the service; `Journey` interleaves gossip and uploads with any run of the
concurrent service and its processes. `Agent` is the payer's phone and `Keystore` the stored server keys.

Proofs say what they leave folded: `hide` names the definitions that the statements of a lemma's body do not need.

## Findings

- A string field that starts with EF BB BF is accepted and loses those bytes, because the decoder does not set
  `ignoreBOM`. So every instruction has a second accepted encoding (`InstructionCodec.MarkedCopyIsAccepted`),
  and accepted bytes re-encode to themselves exactly when no string field starts with that mark.
- The comment at packages/protocol/src/envelope.js:35 says an envelope is under 300 bytes. A sealed envelope has 237
  bytes and its two names (`Sealer.SealedLength`), and the longest has 365 (`Sealer.LongestEnvelope`). The limit the
  code enforces is 4096.
- `post` checks the net change of each account, but the table's CHECK applies to each UPDATE.
  `Ledger.PrecheckCanMissTheCheck` is an entry that passes the first and breaks the second;
  `Ledger.WhenACheckBreaks` says exactly when that happens, and a transfer never does.
- Besides the read of `authorize`, one more read is not covered by a lock: an account that does not exist yet cannot
  be locked (apps/server/src/ledger.js:27-33). A payment is refused for an unknown account exactly when its transaction
  comes to its SELECT and one of the parties has no account in the snapshot that SELECT takes
  (`Verdicts.UnknownExactlyWhenMissing`), so one opened in between is refused all the same:
  `Witness.AccountCanOpenTooLate` gives such a run for every payment but those to the house, whose account always exists.
- `compose` uses up a sequence number even when the instruction is then refused, so numbers can have gaps;
  they still increase (`Agent.DeviceAgent.Compose`).
- A revocation committed after a delivery's `authorize` read (apps/server/src/ingest.js:128) does not stop that
  delivery: `Witness.RevocationCanComeTooLate` gives such a run for every payment. When a payment settles, its device is
  still active exactly when every revocation since that read has been followed by a registration
  (`Verdicts.RevocationComesTooLate`). Registering a device again reactivates it and replaces its allowance.
- A payment can be lost. A process loads its ring once (apps/server/src/index.js:22-23), a rotation replaces only that
  of the process that was asked (apps/server/src/http/app.js:157-158), there is more than one process
  (apps/server/migrations/002_claims.sql:9-10), and an envelope that does not open is answered with
  `bridgeShouldRetain: false` (apps/server/src/ingest.js:50-54), although the comment there says that nothing can
  become valid on a retry, and the one at packages/mesh/src/mesh.js:132 that a bridge forgets only what is decided. So
  an envelope sealed to a new key and posted to a process that still has the old ring is answered UNKNOWN_SERVER_KEY
  and dropped: `Journey.OlderProcessLosesIt` gives the run, and `Composition.SealedPaymentCanBeLost` gives it for
  every payment sealed to a key the older ring lacks (`Composition.ALossHappens` shows one such service). That is the
  only way: an upload drops an undecided payment that the stored keys can open exactly when the process it is posted
  to cannot open it (`Journey.UploadDropsExactlyWhenAskedInVain`), which is when its ring lacks the key the envelope
  names (`Composition.KeyDecides`), and anything else keeps it (`Journey.NoPaymentIsLost`).

## Model

| member | source | states |
|---|---|---|
| Runs.RunsRefineTheSpecification | apps/server/src/ingest.js:44-160 | every interleaving of statements, crashes, takeovers, releases and lost acknowledgements is a run of the specification: a commit decides its own undecided payment atomically, an operator's transaction operates, and no other step changes anything visible |
| Runs.NoPaymentIsDecidedTwice | apps/server/src/claims.js:88-101 | no run commits two decisions for one payment, with or without the journal's UNIQUE key |
| Runs.StaleHolderNeverCommits | apps/server/src/claims.js:36-112 | once a delivery's claim has been taken over, released or decided by another, it never commits anything |
| Runs.LeaseIsRespected | apps/server/src/claims.js:22-56 | in every run a delivery that took a claim at t has it, undecided or decided by itself, until it releases it or another delivery asks later than t + 30000 ms |
| Runs.OnlyALaterDeliveryTakesOver | apps/server/src/ingest.js:66-79 | meanwhile another delivery of the payment gets the claim iff it asks later than that, and one turned away is answered IN_PROGRESS, CLAIM_HELD, and told to keep its copy |
| Runs.RecordsAlwaysAgree | apps/server/src/ingest.js:102-126 | in every reachable state a claim is SETTLED iff a PAYMENT entry has its key, that entry is the one it names, and a receipt with the same outcome exists iff the claim is decided |
| Runs.RepliesAgree | apps/server/src/ingest.js:185-194 | all decided replies ever given for one payment are equal but for the replay mark, at most one holder gave the original, and the payment is the one inside the envelope |
| Runs.OneOriginalReply | apps/server/src/ingest.js:102-126 | of the deliveries answered with the original decision on one payment there is only one |
| Runs.LastStepsAnswer | apps/server/src/ingest.js:81-126 | an acknowledged commit answers its verdict, a failure or a lost acknowledgement TRANSIENT with the copy to be kept, and a release that is performed leaves no claim |
| Ingest.ReplayRebuildsTheReply | apps/server/src/ingest.js:186-194 | replaying the row that updateDecision wrote gives back the original reply |
| Runs.FastPathAgrees | apps/server/src/ingest.js:45-64 | a fingerprint hit names the payment inside those bytes under the stored keys, and the slow path would find it decided, in every reachable state |
| Runs.NothingIsStranded | apps/server/src/ingest.js:44-98 | from every reachable state one uninterrupted delivery to a process that can open the envelope ends decided iff the payment was decided or its claim could be taken, and the bridge keeps its copy iff it is undecided |
| Consistency.NoPaymentIsStranded | apps/server/src/ingest.js:66-97 | the same from any consistent tables, and the reply of a delivery that takes the claim is the original decision |
| Consistency.LiveLeaseIsLeftAlone | apps/server/src/ingest.js:66-79 | a delivery that meets an undecided claim changes only the fingerprint note and answers IN_PROGRESS with the copy to be kept iff the lease has not run out |
| Consistency.KnownBytesAreReplayed | apps/server/src/ingest.js:45-48 | bytes noted for a decided payment are answered from its row without being opened, whichever keys the process has |
| Consistency.FirstNoteStays | apps/server/src/ingest.js:59-64 | a fingerprint that has been noted keeps its payment, whatever is delivered afterwards |
| Consistency.WhenTheCommitIsNotHeardOf | apps/server/src/ingest.js:81-97 | the reply does not tell an applied commit from one that was not; the first leaves the payment decided, the second only the fingerprint note, with the claim free at once |
| Consistency.DecidingAloneSucceeds | apps/server/src/ingest.js:101-160 | a delivery that holds its claim and runs alone always commits a decision: passing limitProblem makes consumeAllowance succeed and no top-up holds its key |
| Runs.DroppedExactlyWhenDecidedOrUnreadable | apps/server/src/ingest.js:50-97 | a bridge is told to drop its copy iff the reply announces a decision, which is then on record for the payment inside, or open failed under the ring of the process it asked |
| Runs.AllowanceIsConserved | apps/server/src/registry.js:90-108 | what is left of a device's allowance plus what it settled since its last registration is what it was granted, and is never negative |
| Runs.SettlementPays | apps/server/src/ingest.js:145-154 | a settling commit takes exactly the amount from the payer, who has it or is the house, gives it to the payee, books it in one entry of two postings under sender/nonce, takes it off the signing device's allowance and uses its sequence number |
| Runs.OneSettlementPerSequenceNumber | apps/server/src/registry.js:115-129 | of all payments one device signs under one sequence number at most one settles |
| Runs.CommitsNeverSawThemselves | apps/server/src/ingest.js:135-140 | no committing transaction saw ALREADY_SEEN_SAME_PAYMENT |
| Runs.RefusalMovesNothing | apps/server/src/ingest.js:116-126 | a commit that refuses changes no balance, entry, posting or allowance, and one for sequence reuse marks the device REVOKED in the same step |
| Runs.HonestDeviceIsNeverRevoked | apps/server/src/ingest.js:135-140 | a device of whose delivered payments no two share a number stays active through every step but an operator's revocation |
| Verdicts.SettledOnlyIfAuthorized | apps/server/src/registry.js:43-82 | money moves only for a fresh payment whose device was, when authorize read it in the very transaction that commits, active, bound to the payer, under the signing key and within its limits |
| Verdicts.RevocationComesTooLate | apps/server/src/registry.js:131-136 | when a payment settles, its device is active iff every revocation since that transaction's authorize, by an operator or by a committed reuse, has been followed by a registration |
| Verdicts.ActiveUnlessRevoked | apps/server/src/registry.js:23-27 | between any two moments of a run an active device stays active iff every revocation in between has been followed by a registration |
| Verdicts.SelectionWasMade | apps/server/src/ledger.js:27-30 | the accounts a transaction goes by are those that existed when its own SELECT took its snapshot |
| Witness.RevocationCanComeTooLate | apps/server/src/ingest.js:128-154 | for every payment the service can open there is a run in which its device is revoked between the authorize read and the commit and the payment settles |
| Witness.AccountCanOpenTooLate | apps/server/src/ledger.js:27-33 | for every payment the service can open, but those to the house whose account always exists, there is a run in which the payee's account is opened after the SELECT and the payment is refused for want of it |
| Witness.BothHappen | apps/server/src/ingest.js:101-160 | there is a world with such runs, each ending in a commit |
| Progress.AnyPaymentCanFinish | apps/server/src/ingest.js:44-98 | from every reachable state with no open transaction, and for every process that can open the envelope, there are steps of one new delivery alone that end with the decision announced, unless another delivery's lease is running |
| Verdicts.SettlesExactlyWhenItMay | apps/server/src/ingest.js:101-160 | a delivery that holds its claim and runs alone settles iff the device is entitled, the payment fresh, its number unused, its amount within cap and allowance, and both accounts exist with enough money |
| Verdicts.RefusesExactlyForCause | apps/server/src/ingest.js:128-157 | and otherwise it is refused with a code iff that code's cause holds and no earlier check fails, so the tables determine the code |
| Verdicts.DeliveryAnswers | apps/server/src/ingest.js:44-160 | one uninterrupted delivery that reads a payment and can have its claim answers SETTLED iff the payment may be made, going by the device of the signing key and the time of arrival, and otherwise REJECTED with the code whose cause holds |
| Verdicts.OnlyOneCause | apps/server/src/ingest.js:128-157 | no two refusal codes have a cause at once |
| Verdicts.RefusedOnlyForCause | apps/server/src/ingest.js:128-157 | whatever runs beside it, a committed refusal gives the first cause in the order of the checks, with a detail that tells its numbers: denials and limits as the same transaction read them, age at arrival, reuse and shortage at the commit, an unknown account in the snapshot of its SELECT; each code says that all earlier checks passed |
| Verdicts.UnknownExactlyWhenMissing | apps/server/src/ledger.js:27-33 | a commit refuses for an unknown account iff its transaction came to its SELECT and one of the parties had no account when that SELECT took its snapshot |
| Runs.LedgerAlwaysBalances | apps/server/src/ledger.js:108-125 | in every reachable state checkInvariants holds, every entry sums to zero and no account but the house is negative |
| Runs.DecisionsAreKept | apps/server/src/claims.js:36-47 | a decision, once committed, is never changed |
| Runs.DecisionsNameTheirDevice | apps/server/src/ingest.js:101-120 | every committed decision is filed under the payment and the device its envelope names |
| Deadlock.NoWaitingCycle | apps/server/src/ledger.js:24-30 | with any number of payments and of funds that lock row by row, the waits-for graph over their row and key locks is acyclic in every reachable state |
| Deadlock.SomeTransactionCanMove | apps/server/src/ledger.js:24-30 | while any payment or fund is open, some open one can execute its next statement or commit |
| Deadlock.JointRunsAreRuns | apps/server/src/ledger.js:78-87 | whatever the service reaches with funds that lock row by row it reaches with funds in one step, so every theorem about runs covers them |
| Deadlock.CheckedFundSucceeds | apps/server/src/ledger.js:36-62 | what a fund checked under its locks still holds when it commits: the account is credited from the house |
| Isolation.FactsAreStable | apps/server/src/db/pool.js:43-56 | what a transaction has read or locked stays true under any change that respects its locks |
| Isolation.StatementKeepsFacts | apps/server/src/ingest.js:128-159 | each statement establishes what the next one relies on |
| Isolation.CommitIsAtomicDecision | apps/server/src/ingest.js:81-84 | the writes a transaction commits are those of one uninterrupted decide on the tables at that moment, with the authorization it read |
| Safety.CommitIsOneStep | apps/server/src/db/pool.js:47-49 | a commit is one deciding step of the specification |
| Safety.StepRefinesSpec | apps/server/src/ingest.js:44-160 | every step keeps the tables consistent and is a step of the specification, where a refusal uses up the sequence number iff it comes after the number was recorded |
| Safety.StepKeepsIsolation | apps/server/src/db/pool.js:43-56 | every step keeps the lock discipline and every open transaction's facts |
| Safety.StepKeepsHolders | apps/server/src/claims.js:36-56 | a holder id names one delivery and, through it, one payment |
| Safety.StepKeepsReplies | apps/server/src/ingest.js:44-98 | every reply that announces a decision says what the claim of the payment in its envelope records |
| Safety.FingerprintNamesThePayment | apps/server/src/ingest.js:59-64 | a stored fingerprint names the payment inside the bytes it is of |
| History.StepKeepsHistory | apps/server/src/registry.js:90-129 | the log of commits and operator acts keeps accounting for claims, sequence numbers and allowances |
| Consistency.DecisionKeepsConsistency | apps/server/src/ingest.js:101-160 | a committed decision keeps books, claims, entries, receipts, sequence numbers and devices consistent |
| Consistency.DecisionIsOneStep | apps/server/src/ingest.js:101-160 | money, allowance, sequence number, receipt and decision change together, as the verdict says |
| Consistency.OperatingKeepsConsistency | apps/server/src/registry.js:15-36 | account opening, funding, registration, top-up and revocation keep the tables consistent |
| Consistency.OneEntryPerSettledClaim | apps/server/src/ingest.js:102-104 | exactly one PAYMENT entry has the key of a settled claim, and none that of any other |
| Consistency.ClaimingIsInvisible | apps/server/src/claims.js:36-112 | taking, taking over or releasing a claim decides nothing |
| Ingest.DecideDelivery | apps/server/src/ingest.js:44-98 | the statements of one delivery, however its COMMIT ends, leave exactly the tables and the reply of the delivery function |
| Ingest.SettleInTransaction | apps/server/src/db/pool.js:43-56 | BEGIN, body, COMMIT or ROLLBACK, then release on failure: nothing of a failed body stays |
| Ingest.DecidePayment | apps/server/src/ingest.js:101-160 | the statements of decide, in order, make the decision of the decision function or throw its error |
| Ingest.MoveMoney | apps/server/src/ingest.js:145-159 | transfer, allowance and decision, with insufficient funds and unknown accounts turned into refusals |
| Claims.Acquire | apps/server/src/claims.js:36-56 | takes the claim exactly when no row has the key or its row is IN_PROGRESS with a lease that ended before now; then the row is IN_PROGRESS, this holder's, until now + lease; otherwise nothing is written, and the answer is ALREADY_DECIDED with the row or HELD_ELSEWHERE |
| Claims.MarkDecision | apps/server/src/claims.js:69-101 | decides exactly when the row is IN_PROGRESS and the caller's, and the row then says SETTLED with the entry or REJECTED with code and reason |
| Claims.Release | apps/server/src/claims.js:107-112 | removes the row exactly when it is IN_PROGRESS and the caller's |
| Claims.LeaseIsKept | apps/server/src/claims.js:36-47 | after an acquire at t with lease L another acquire succeeds iff its time is past t + L, and until then is told HELD_ELSEWHERE |
| Claims.DecidedIsFinal | apps/server/src/claims.js:36-112 | no acquire, decision or release by anyone changes a decided claim |
| Claims.EarlierHolderIsShutOut | apps/server/src/claims.js:88-112 | after a takeover or a release and re-acquire the earlier holder can no longer decide |
| Registry.RegisterDevice | apps/server/src/registry.js:15-36 | accepted iff 0 < cap <= allowance and the account exists; then the device is bound to the new account and ACTIVE with no reason, under its stored key or else the new one, with the new limits, and no other device changes; refused registrations change nothing |
| Registry.ConsumeAllowance | apps/server/src/registry.js:90-97 | spends exactly when at least the amount is left, and then exactly the amount |
| Registry.TopUpAllowance | apps/server/src/registry.js:100-108 | adds to a known device's allowance unless it would become negative, and returns the new one |
| Ledger.PostEntry | apps/server/src/ledger.js:19-63 | the locking, checking and posting loops write exactly what post means, or fail with its error before the first write |
| Ledger.CheckMovements | apps/server/src/ledger.js:20-43 | the checks before the first write, in their order, with the account that fails them |
| Ledger.WritePostings | apps/server/src/ledger.js:51-61 | the posting loop moves all balances or stops at the first statement that breaks a CHECK |
| Ledger.MoveAllMeaning | apps/server/src/ledger.js:51-61 | the loop succeeds iff no prefix of it overdraws the account just updated, and then every balance moved by its net change |
| Ledger.PrecheckCoversTheLoop | apps/server/src/ledger.js:36-61 | with each account named once, passing the pre-check means no statement breaks the CHECK |
| Ledger.PrecheckCanMissTheCheck | apps/server/src/ledger.js:36-61 | an entry that names an account twice can pass the pre-check and still fail |
| Ledger.WhenACheckBreaks | apps/server/src/ledger.js:19-61 | exactly when post fails on a CHECK |
| Ledger.TransferMeaning | apps/server/src/ledger.js:66-75 | everything a transfer between two parties can end in, and when |
| Ledger.LockOrderOfTwo | apps/server/src/ledger.js:26-30 | both parties are locked in ascending order whichever pays |
| Text.LessMeans | apps/server/src/ledger.js:26 | account names are ordered by their first difference: a missing character first, then the smaller one |
| Ledger.PostKeepsBooks | apps/server/src/ledger.js:19-63 | every successful post keeps entries at zero, balances equal to their postings and customers out of debt |
| Ledger.BalancedBooksPassTheCheck | apps/server/src/ledger.js:108-125 | balanced books pass checkInvariants, and the house is minus the sum of the customers |
| Ledger.EditedBalanceIsReported | apps/server/src/ledger.js:112-124 | a balance changed behind the postings is reported, and nothing else is |
| Instruction.KeyNamesPayment | packages/protocol/src/instruction.js:52 | two payments share a key iff they share sender and nonce |
| Instruction.KeyIsNotATopUp | apps/server/src/http/app.js:94 | no operator top-up, whatever its reference, takes the key of a payment |
| Instruction.VpaMeans | packages/protocol/src/instruction.js:24 | the accepted VPAs are a name of 2 to 48 characters, an at sign and a handle of 2 to 15 |
| Instruction.UuidMeans | packages/protocol/src/instruction.js:25 | the accepted nonces are five groups of lowercase hexadecimal digits with version 4 and an RFC variant |
| Utf8.StringRoundTrip | packages/protocol/src/bytes.js:6-9 | a string survives encoding and decoding iff it does not start with U+FEFF, which is otherwise dropped |
| Utf8.DecodingIsCanonical | packages/protocol/src/bytes.js:6-9 | accepted bytes are the encoding of what they decode to, but for a dropped leading mark |
| Bytes.Concat | packages/protocol/src/bytes.js:11-19 | filling one buffer part by part at a running offset gives the parts one after the other |
| Bytes.BigEndianRoundTrip | packages/protocol/src/canonical.js:18-47 | fixed-width big-endian integers read back as written |
| Bytes.BigEndianIsCanonical | packages/protocol/src/canonical.js:87-112 | and every byte string of that width is the writing of what it reads as |
| Canonical.U64Matches | packages/protocol/src/canonical.js:106-112 | u64 accepts exactly the eight bytes of the integers JavaScript holds exactly |
| Canonical.BytesMatch | packages/protocol/src/canonical.js:121-123 | bytes accepts exactly a u16 length and that many bytes |
| Canonical.TextMatches | packages/protocol/src/canonical.js:125-132 | string accepts exactly a length-prefixed field that decodes |
| Canonical.TextIsCanonical | packages/protocol/src/canonical.js:56-58 | a text field is the encoding of its text iff it does not start with a byte order mark |
| Canonical.BothIsExact | packages/protocol/src/canonical.js:71-147 | reading one field after another accepts exactly the concatenation of their layouts, wherever it stands |
| Canonical.ExactIsPrefixFree | packages/protocol/src/canonical.js:138-146 | no layout is a strict prefix of another of the same format |
| Canonical.CanonicalWriter.Uint | packages/protocol/src/canonical.js:18-38 | appends the big-endian integer, or refuses one out of range and appends nothing |
| Canonical.CanonicalWriter.U64 | packages/protocol/src/canonical.js:41-47 | appends eight bytes, or refuses what is not a safe integer |
| Canonical.CanonicalWriter.PutBytes | packages/protocol/src/canonical.js:50-54 | appends the length and the bytes, or refuses more than 65535 and appends nothing |
| Canonical.CanonicalWriter.PutString | packages/protocol/src/canonical.js:56-58 | appends the length-prefixed UTF-8 of the text |
| Canonical.CanonicalWriter.ToBytes | packages/protocol/src/canonical.js:66-68 | everything appended so far, in order |
| Canonical.CanonicalReader.Raw | packages/protocol/src/canonical.js:114-119 | the next bytes and the offset past them, or truncated |
| Canonical.CanonicalReader.U64 | packages/protocol/src/canonical.js:106-112 | reads what the u64 function reads, at the same offset |
| Canonical.CanonicalReader.TakeText | packages/protocol/src/canonical.js:125-132 | reads what the string function reads, at the same offset |
| InstructionCodec.InstructionRoundTrip | packages/protocol/src/instruction.js:56-84 | every valid instruction decodes to itself from 75 bytes and its two names |
| InstructionCodec.AcceptedPayments | packages/protocol/src/instruction.js:27-50 | some bytes decode to an instruction iff its parties are two different VPAs, its nonce a UUID, amount and number positive and safe, and it expires after it was signed |
| InstructionCodec.BytesOfInstruction | packages/protocol/src/instruction.js:56-67 | the encoding byte by byte: version 1, payer, payee, amount, nonce, number, signing and expiry time, texts behind their u16 length and numbers in eight bytes |
| InstructionCodec.ReencodesUnlessBom | packages/protocol/src/instruction.js:56-84 | accepted bytes re-encode to themselves iff no string field starts with a byte order mark |
| InstructionCodec.MarkedCopyIsAccepted | packages/protocol/src/instruction.js:69-84 | every instruction has a second accepted encoding, with a mark before the payer's name |
| InstructionCodec.AcceptedIsPrefixFree | packages/protocol/src/instruction.js:69-84 | every strict extension or truncation of accepted bytes is refused |
| InstructionCodec.WriteInstruction | packages/protocol/src/instruction.js:56-67 | the writer calls lay down exactly the encoding |
| InstructionCodec.ReadInstruction | packages/protocol/src/instruction.js:69-84 | the reader calls and the validation decode exactly what the decoding function does, errors included |
| SignedCodec.SignedRoundTrip | packages/protocol/src/signed.js:39-56 | a signed instruction decodes to itself iff its key has 32 bytes and its signature 64 |
| SignedCodec.BytesOfSigned | packages/protocol/src/signed.js:39-45 | the encoding byte by byte: key, signature and instruction, each behind its u16 length |
| SignedCodec.ReencodesUnlessBom | packages/protocol/src/signed.js:39-56 | accepted bytes re-encode to themselves iff no string field inside starts with a byte order mark |
| SignedCodec.AcceptedIsPrefixFree | packages/protocol/src/signed.js:47-56 | every strict extension or truncation of accepted bytes is refused |
| SignedCodec.WriteSigned | packages/protocol/src/signed.js:39-45 | the writer calls lay down exactly the encoding, or refuse what it refuses |
| SignedCodec.ReadSigned | packages/protocol/src/signed.js:47-56 | the reader calls decode exactly what the decoding function does, in its order of errors |
| ReceiptCodec.ReceiptRoundTrip | packages/protocol/src/receipt.js:21-45 | every encodable receipt comes back without leading marks, so unchanged iff it had none |
| ReceiptCodec.BytesOfReceipt | packages/protocol/src/receipt.js:21-29 | the encoding byte by byte: key, 1 for settled or 2 for rejected, reason, entry and time |
| ReceiptCodec.ReencodesUnlessBom | packages/protocol/src/receipt.js:21-45 | accepted bytes re-encode to themselves iff neither text starts with a byte order mark |
| ReceiptCodec.AcceptedIsPrefixFree | packages/protocol/src/receipt.js:31-45 | every strict extension or truncation of accepted bytes is refused |
| ReceiptCodec.WriteReceipt | packages/protocol/src/receipt.js:21-29 | the writer calls lay down exactly the encoding, or refuse the first value out of range |
| ReceiptCodec.ReadReceipt | packages/protocol/src/receipt.js:31-45 | the reader calls decode exactly what the decoding function does |
| EnvelopeCodec.AcceptedReencodes | packages/protocol/src/envelope.js:41-65 | every accepted wire is the encoding of its envelope, and the associated data is its first 44 bytes |
| EnvelopeCodec.BytesOfEnvelope | packages/protocol/src/envelope.js:41-65 | accepted bytes are "LFFA", version, suite, key id, 32 bytes behind their length, and the ciphertext |
| EnvelopeCodec.EnvelopeRoundTrip | packages/protocol/src/envelope.js:51-65 | an encodable envelope decodes to itself iff enc has 32 bytes, the ciphertext a tag and the whole at most 4096 |
| EnvelopeCodec.DecodingIsInjective | packages/protocol/src/envelope.js:53-65 | two wires of one envelope are the same bytes |
| EnvelopeCodec.WriteHeader | packages/protocol/src/envelope.js:41-49 | the writer calls lay down exactly the header, or refuse the first value out of range |
| EnvelopeCodec.ReadEnvelope | packages/protocol/src/envelope.js:53-65 | the reader calls decode exactly what the decoding function does, in its order of errors |
| Hkdf.Expand | packages/protocol/src/crypto/hkdf.js:23-34 | the loop fills the buffer with the first L bytes of T(1), T(2), .. of section 2.3 of RFC 5869; the one-byte counter never wraps, and more than 255 blocks are refused |
| Hkdf.NextBlock | packages/protocol/src/crypto/hkdf.js:23-34 | 32 more bytes of output are one HMAC over the 32 before them, the info and the block number |
| Hkdf.ShorterIsPrefix | packages/protocol/src/crypto/hkdf.js:23-34 | a shorter output is a prefix of every longer one |
| Hkdf.LengthsAreSeparated | packages/protocol/src/crypto/hkdf.js:45-47 | labelled expansions of different lengths never share an input |
| Hkdf.NamesAreSeparated | packages/protocol/src/crypto/hkdf.js:45-47 | nor do those of two labels of which neither starts the other |
| Hpke.KemRoundTrip | packages/protocol/src/crypto/hpke.js:104-115 | decapsulation gives the encapsulated secret, and fails whenever encapsulation does |
| Hpke.SharedSecretIs | packages/protocol/src/crypto/hpke.js:104-108 | the encapsulated secret is the two HMACs of section 4.1 of RFC 9180 over the exchange, the ephemeral and the recipient's public key |
| Hpke.ScheduleIs | packages/protocol/src/crypto/hpke.js:122-144 | key and base nonce of suite 0020/0001/0002 are the HMACs of section 5.1 of RFC 9180 in base mode, labels and lengths included |
| Hpke.KeyScheduleMeaning | packages/protocol/src/crypto/hpke.js:135-144 | key, nonce and exporter secret are each the front of one HMAC, keyed with the secret extracted from the shared secret, over its own labelled input |
| Hpke.UsesAreSeparated | packages/protocol/src/crypto/hpke.js:135-160 | uses whose labels begin with different letters, as those of the key schedule do, never share an input |
| Hpke.ComputeNonce | packages/protocol/src/crypto/hpke.js:147-156 | the loop over the last eight bytes gives base_nonce XOR I2OSP(seq, Nn) of section 5.2 of RFC 9180, and refuses unsafe sequence numbers |
| Hpke.NoncesDiffer | packages/protocol/src/crypto/hpke.js:147-156 | two sequence numbers share a nonce iff they are equal |
| Sealer.OpenUndoesSeal | packages/protocol/src/sealer.js:30-97 | the service opens what was sealed to its key, under every ring extending the sealing ring |
| Sealer.PaymentArrives | packages/protocol/src/sealer.js:22-97 | from the device's seed to the service's reading of the same payment, signed by that device's key |
| Sealer.MoreKeysOnlyHelp | packages/protocol/src/sealer.js:57-97 | adding keys changes no result but UNKNOWN_SERVER_KEY, which is given exactly when the named key is missing |
| Sealer.SealedLength | packages/protocol/src/sealer.js:30-36 | sealing fails only on an unusable exchange, and a sealed envelope has 237 bytes and its two names, at most 365 |
| Sealer.LongestEnvelope | packages/protocol/src/envelope.js:35 | 365 bytes are reached |
| Sealer.OpenedIsGenuine | packages/protocol/src/sealer.js:57-97 | whatever opens is a well-formed payment whose 64-byte signature by its 32-byte device key verifies over the signing domain and the encoded payment, under a key of the ring, in an envelope of version 1 and suite 1 whose header is its first 44 bytes |
| Sealer.OpenAnswers | packages/protocol/src/sealer.js:80-96 | an envelope to a key of the ring opens iff its ciphertext decrypts under the scheduled key and base nonce with the first 44 bytes authenticated, parses, and holds a signature that verifies over the domain and the encoded payment; otherwise the answer is DECRYPT_FAILED, MALFORMED_PLAINTEXT or BAD_SIGNATURE, the first that applies |
| Sealer.WhyRefused | packages/protocol/src/sealer.js:57-78 | UNSUPPORTED iff an envelope has another version or suite, MALFORMED iff the bytes are no envelope or its exchange is unusable |
| Sealer.SealedIs | packages/protocol/src/sealer.js:30-36 | a sealed envelope names the key and the ephemeral public key, and its bytes are the 44-byte header and the signed bytes encrypted under the scheduled key and base nonce with that header authenticated |
| Sealer.IdealPrimitivesExist | packages/protocol/src/crypto/aead.js:29-47 | what is assumed of the primitives can be met |
| Composition.SealerIsSound | packages/protocol/src/sealer.js:57-97 | opening by the sealer and an injective hash provide all the protocol's theorems assume |
| Composition.UnopenedIsRefused | apps/server/src/ingest.js:50-54 | bytes that do not open and are not known change nothing and are answered INVALID, to be dropped, with the code of the sealer's reason, BAD_SIGNATURE for one that does not verify |
| Composition.SealedPaymentIsDecided | apps/server/src/ingest.js:44-98 | at any point of a run, a payment sealed to a key that the process has loaded is decided by one uninterrupted delivery to it unless a lease is running, and a process that has not loaded the key has it dropped as UNKNOWN_SERVER_KEY |
| Composition.KeyDecides | packages/protocol/src/sealer.js:57-97 | of the envelopes that the stored keys open a process opens, to the same payment, exactly those whose header names a key of its ring, and answers UNKNOWN_SERVER_KEY to the rest |
| Composition.SealedPaymentCanBeLost | apps/server/src/ingest.js:50-54 | for every payment sealed to a key that an older ring lacks there is a run in which its last copy is dropped, undecided, by a process with that ring |
| Composition.ALossHappens | apps/server/src/index.js:22-23 | there is a service over ideal primitives with such a run |
| Composition.StoredRingsAreAllowed | apps/server/src/keystore.js:19-51 | rings loaded from the key store at any times are rings that processes of the model may hold and rotate to |
| Composition.ResealsAgree | packages/mesh/src/agent.js:51-57 | different envelopes around one signed payment are answered with one decision, and one original reply |
| Composition.PhoneIsNeverRevoked | packages/mesh/src/agent.js:28-57 | a phone that has only used its counter is never revoked by settlement in a run whose delivered envelopes each seal one of its own payments, any number of times, or do not open as its own |
| KeyRing.RotationExtends | packages/protocol/src/keyring.js:57-65 | rotation keeps every key and makes the new one current; it refuses a known id, and the current key cannot be retired |
| Keystore.KeyStore.LoadKeyRing | apps/server/src/keystore.js:19-29 | the ring of exactly the live stored keys, public halves computed afresh, with the highest id current, made from a new key when there is none |
| Keystore.KeyStore.Rotate | apps/server/src/keystore.js:45-51 | stores one new key under the id after the highest, changes no other row and returns the ring of all live keys with it current |
| Keystore.RotationGrowsTheRing | apps/server/src/keystore.js:45-51 | rotating the store is rotating the ring |
| Keystore.EveryLaterRingExtends | apps/server/src/keystore.js:19-51 | the ring loaded after any rotations extends every ring loaded before, with a newer current key |
| Mesh.MeshNode.Hold | packages/mesh/src/mesh.js:19-24 | the first copy stays |
| Mesh.Mesh.GossipRound | packages/mesh/src/mesh.js:108-127 | nothing held is lost or changed; everything new was brought by a neighbour over an uncut link, with one hop more, from what the neighbour held before the round; without loss all that either end of an uncut link held before is held by the other after, and without a partition every link is uncut; the handovers are the growth of what is in flight |
| Mesh.Mesh.InFlight | packages/mesh/src/mesh.js:151-153 | the number of envelopes held by all phones |
| Mesh.OffersAreOpenLinks | packages/mesh/src/mesh.js:95-117 | an offer goes from one phone to another iff there is a link between them, in either direction, and no partition is set or both are on one side of it |
| Gossip.GossipIsBreadthFirst | packages/mesh/src/mesh.js:108-127 | without loss, after r rounds a phone holds the envelope iff it is within distance r, with hops equal to its distance |
| Gossip.HopsAreWalkingDistance | packages/mesh/src/mesh.js:87-127 | in terms of the links: without loss a phone holds the envelope after r rounds iff there is a walk of at most r uncut links from its origin, and its hops are the length of a shortest walk; without a partition, as after healing, no link is cut |
| Gossip.HopsAreBounded | packages/mesh/src/mesh.js:108-127 | under any loss, distance <= hops <= rounds for every holder, and the copy is the origin's |
| Gossip.NothingCrossesAPartition | packages/mesh/src/mesh.js:87-98 | while a partition lasts an envelope stays on the side it started on |
| Flush.FlushBridges | packages/mesh/src/mesh.js:138-148 | the uploads are deliveries to the asked process one after the other, exactly one for each copy that a bridge held, each reported under its bridge's id with the reply to that copy's bytes; a copy is forgotten iff its reply says so, which is only when its payment is decided or its bytes do not open there; other phones keep everything and no decision is undone |
| Flush.FlushBridge | packages/mesh/src/mesh.js:141-145 | the same for one bridge; and if every commit is acknowledged and no lease on what can be read was still running, the bridge is empty afterwards and every payment that the process can read is decided |
| Flush.UnhinderedFlushEmpties | packages/mesh/src/mesh.js:138-148 | the same for all bridges |
| Flush.UploadHeld | packages/mesh/src/mesh.js:141-145 | one upload is an uninterrupted delivery of the held bytes to the process, at some time and with some end to its commit, whose reply decides whether the copy stays |
| Flush.DeliveryIsFair | apps/server/src/ingest.js:44-98 | however its commit ends, an uninterrupted delivery keeps the tables in order and says to drop the envelope only when it is finished |
| Journey.NoPaymentIsLost | packages/mesh/src/mesh.js:108-148 | with gossip and uploads beside any run of the concurrent service, a phone keeps an envelope that the stored keys open until its payment is decided, unless it uploaded it to a process that could not open it |
| Journey.UploadDropsExactlyWhenAskedInVain | apps/server/src/ingest.js:50-97 | an upload drops an undecided payment that the stored keys can open iff the process it was posted to cannot open it |
| Journey.OlderProcessLosesIt | apps/server/src/http/app.js:157-160 | for every envelope that the stored keys open and an earlier ring does not, there is a run, after the rotation, in which its last copy is posted to a process that still has the earlier ring and is gone while the payment is undecided |
| Agent.DeviceAgent.Compose | packages/mesh/src/agent.js:28-40 | signs, under the given number or the next of the counter, the instruction from this phone's account to the payee, amount and nonce of the order, signed now and expiring after its time to live or six hours, and issues that or nothing; the number is used up even when it is refused, and numbering by the counter keeps numbers increasing |
| Agent.DeviceAgent.DoubleSpend | packages/mesh/src/agent.js:64-70 | two payments from this phone's account to the payee and of the amount of the order, signed under one new number, each sealed |
| Agent.SealIsOpened | packages/mesh/src/agent.js:43-45 | a phone's seal fails only on an unusable exchange, and a service with the key opens it to what was signed |
| Composition.OrderIsPaid | packages/mesh/src/agent.js:28-49 | when an envelope in which a phone sealed an order is settled, that commit moves exactly the amount of the order from the phone's account to the payee, changes no other balance and takes the amount off that device's allowance |
| Composition.OrdinaryUseIsNeverRevoked | packages/mesh/src/agent.js:28-40 | a device whose delivered payments were all numbered by its counter stays active through the run unless an operator revokes it |
| Composition.OnePaymentOfAPairSettles | packages/mesh/src/agent.js:64-70 | money moves for at most one payment of a double spend |

## Left out

- HMAC, X25519, AES-GCM, Ed25519 and SHA-256 are function parameters with the few laws listed in `Sealer.Ideal` and `Ingest.Sound`; nothing is claimed about secrecy or forgery.
- PostgreSQL itself: statements are atomic, row and unique-key locks last to commit, and the constraints are those of the migrations. The share locks of foreign keys are not modelled.
- Of operators' transactions only funds take their locks one at a time; opening accounts, registering, topping up and revoking are single steps that wait for the locks they take.
- The collation of the database is taken to be code-unit order, which decides only which of two missing accounts a message names.
- Holder ids are fresh by assumption; nonces are inputs.
- Timestamps other than leases and freshness, memo texts, `ingest_attempts`, stored receipt bytes and signatures, and reply texts: details are constructors that carry their values, numbers are not rendered, and exception messages of the codecs omit theirs.
- The 64-bit columns and JavaScript's safe range for balances, sums and amounts of the ledger: amounts are unbounded integers there.
- Strings with lone surrogates: a Dafny character is a Unicode scalar value.
- `deviceIdOf` and `fingerprint` are functions; only the injectivity of the second is used.
- Consistency.NoPaymentIsStranded: assumes that no statement of that one delivery fails; failures and crashes are steps of `Protocol`.
- Flush.FlushBridges: each upload is an uninterrupted delivery, all of them to one process, and a phone's envelopes are visited in any order; `Journey` covers uploads to any processes beside a concurrent service.
- Journey.NoPaymentIsLost: a round of gossip is one step and is not interrupted by uploads.
- Restarts: a process that loads its ring again is a new process of the model.
- Composition.OrdinaryUseIsNeverRevoked: assumes that no delivered envelope opens as the device's with a payment it did not issue, since a forged signature is outside the model.
- Hpke.KeyScheduleMeaning: the shared secret is not empty, as every encapsulated one is.
- The random topology, the drop generator and the chain builder of the mesh: links are any links between known phones and any hand-off may be dropped when links are lossy.
- HTTP routes, authentication, rate limits, configuration, start-up, the migration runner, base64 and hex, the dashboard and the demo: plumbing around what is modelled.
- The receipt-signing key of the keystore, `exportSecret`, single-shot HPKE seal and open, and `deriveKeyPair`: they would only add easy members.
