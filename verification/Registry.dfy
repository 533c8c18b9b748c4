/** apps/server/src/registry.js: which device may pay from which account, and how much. */
module Registry {
  import opened Bytes
  import opened Wrappers
  import opened Tables

  datatype Limits = Limits(device: DeviceId, allowance: int, cap: int)

  datatype Authorization = Allowed(limits: Limits) | Denied(code: Code, detail: Detail)

  datatype SequenceOutcome = Fresh | AlreadySeenSamePayment | ReusedForDifferentPayment

  /** Whether a key is entitled to spend from an account, or the first objection. */
  function Authorize(devices: map<DeviceId, Device>, envelopes: map<DeviceId, OfflineEnvelope>,
                     id: DeviceId, publicKey: bytes, senderVpa: Vpa): Authorization
  {
    if id !in devices then Denied(DeviceNotRegistered, NotRegistered(id)) else
    var device := devices[id];
    if device.state == Revoked then
      Denied(DeviceRevoked, if device.revokedReason.Some? then device.revokedReason.value else Plain("device revoked"))
    else if publicKey != device.publicKey then Denied(DeviceKeyMismatch, StoredKeyDiffers)
    else if device.vpa != senderVpa then Denied(DeviceNotBoundToVpa, PaysFrom(id, device.vpa))
    else if id !in envelopes then Denied(NoOfflineEnvelope, NoOfflineLimits)
    else Allowed(Limits(id, envelopes[id].allowance, envelopes[id].cap))
  }

  function LimitProblem(limits: Limits, amount: int): Option<Detail> {
    if amount > limits.cap then Some(OverCap(amount, limits.cap))
    else if amount > limits.allowance then Some(OverAllowance(amount, limits.allowance))
    else None
  }

  function RecordSequence(sequences: map<SequenceNo, Key>, q: SequenceNo, key: Key)
    : (map<SequenceNo, Key>, SequenceOutcome)
  {
    if q !in sequences then (sequences[q := key], Fresh)
    else if sequences[q] == key then (sequences, AlreadySeenSamePayment)
    else (sequences, ReusedForDifferentPayment)
  }

  function Revoke(devices: map<DeviceId, Device>, id: DeviceId, reason: Detail): map<DeviceId, Device> {
    if id in devices then devices[id := devices[id].(state := Revoked, revokedReason := Some(reason))] else devices
  }

  /** A device's limits with that much less allowance. */
  function SpentRow(envelopes: map<DeviceId, OfflineEnvelope>, id: DeviceId, amount: int): OfflineEnvelope {
    if id in envelopes then envelopes[id].(allowance := envelopes[id].allowance - amount) else OfflineEnvelope(0, 0)
  }

  /** None when the conditional UPDATE found too little allowance. */
  function Consume(envelopes: map<DeviceId, OfflineEnvelope>, id: DeviceId,
                   amount: int): Option<map<DeviceId, OfflineEnvelope>> {
    if id in envelopes && envelopes[id].allowance >= amount
    then Some(envelopes[id := SpentRow(envelopes, id, amount)])
    else None
  }

  /** None when the device is unknown, or the CHECK on a negative allowance refuses. */
  function TopUp(envelopes: map<DeviceId, OfflineEnvelope>, id: DeviceId,
                 amount: int): Option<map<DeviceId, OfflineEnvelope>> {
    if id in envelopes && envelopes[id].allowance + amount >= 0
    then Some(envelopes[id := envelopes[id].(allowance := envelopes[id].allowance + amount)])
    else None
  }

  /** The cap check of the code, the foreign key and the CHECKs of the tables. */
  predicate Registrable(accounts: map<Vpa, Account>, vpa: Vpa, allowance: int, cap: int) {
    cap <= allowance && 0 < cap && vpa in accounts
  }

  /** Registering again binds and reactivates the device but keeps the key it is stored under. */
  function RegisteredDevice(devices: map<DeviceId, Device>, id: DeviceId, vpa: Vpa,
                            publicKey: bytes): map<DeviceId, Device> {
    devices[id := Device(vpa, if id in devices then devices[id].publicKey else publicKey, Active, None)]
  }

  method RegisterDevice(store: Store, id: DeviceId, vpa: Vpa, publicKey: bytes, allowance: int, cap: int)
        returns (ok: bool)
    modifies store`devices, store`envelopes
    ensures ok <==> Registrable(store.accounts, vpa, allowance, cap)
    ensures ok <==> 0 < cap <= allowance && vpa in store.accounts
    ensures ok ==> store.devices == RegisteredDevice(old(store.devices), id, vpa, publicKey)
    ensures ok ==>
              && store.devices.Keys == old(store.devices.Keys) + {id}
              && store.devices[id].vpa == vpa && store.devices[id].state == Active
              && store.devices[id].revokedReason == None
              && store.devices[id].publicKey == (if id in old(store.devices) then old(store.devices)[id].publicKey
                                                 else publicKey)
              && forall other :: other in old(store.devices) && other != id ==>
                   store.devices[other] == old(store.devices)[other]
    ensures ok ==> store.envelopes == old(store.envelopes)[id := OfflineEnvelope(allowance, cap)]
    ensures !ok ==> store.Tables() == old(store.Tables())
  {
    if cap > allowance {
      return false;
    }
    if vpa !in store.accounts || cap <= 0 {
      return false; // the foreign key or the CHECK refuses, and the transaction rolls back
    }
    if id in store.devices {
      store.devices := store.devices[id := store.devices[id].(vpa := vpa, state := Active, revokedReason := None)];
    } else {
      store.devices := store.devices[id := Device(vpa, publicKey, Active, None)];
    }
    store.envelopes := store.envelopes[id := OfflineEnvelope(allowance, cap)];
    return true;
  }

  method ConsumeAllowance(store: Store, id: DeviceId, amount: int) returns (ok: bool)
    modifies store`envelopes
    ensures ok <==> Consume(old(store.envelopes), id, amount).Some?
    ensures store.envelopes == if ok then Consume(old(store.envelopes), id, amount).value else old(store.envelopes)
    ensures ok <==> id in old(store.envelopes) && amount <= old(store.envelopes)[id].allowance
    ensures ok ==> store.envelopes == old(store.envelopes)[id :=
              OfflineEnvelope(old(store.envelopes)[id].allowance - amount, old(store.envelopes)[id].cap)]
  {
    if id in store.envelopes && store.envelopes[id].allowance >= amount {
      var row := store.envelopes[id];
      store.envelopes := store.envelopes[id := row.(allowance := row.allowance - amount)];
      return true;
    }
    return false;
  }

  method TopUpAllowance(store: Store, id: DeviceId, amount: int) returns (r: Option<int>)
    modifies store`envelopes
    ensures r.Some? <==> TopUp(old(store.envelopes), id, amount).Some?
    ensures store.envelopes == if r.Some? then TopUp(old(store.envelopes), id, amount).value else old(store.envelopes)
    ensures r.Some? <==> id in old(store.envelopes) && old(store.envelopes)[id].allowance + amount >= 0
    ensures r.Some? ==>
              && r.value == old(store.envelopes)[id].allowance + amount
              && store.envelopes == old(store.envelopes)[id := OfflineEnvelope(r.value, old(store.envelopes)[id].cap)]
  {
    if id !in store.envelopes || store.envelopes[id].allowance + amount < 0 {
      return None;
    }
    var row := store.envelopes[id];
    store.envelopes := store.envelopes[id := row.(allowance := row.allowance + amount)];
    return Some(row.allowance + amount);
  }

  method RecordSequenceNumber(store: Store, q: SequenceNo, key: Key) returns (outcome: SequenceOutcome)
    modifies store`sequences
    ensures (store.sequences, outcome) == RecordSequence(old(store.sequences), q, key)
    ensures outcome == Fresh <==> q !in old(store.sequences)
    ensures outcome == ReusedForDifferentPayment <==> q in old(store.sequences) && old(store.sequences)[q] != key
    ensures store.sequences == if outcome == Fresh then old(store.sequences)[q := key] else old(store.sequences)
  {
    if q !in store.sequences {
      store.sequences := store.sequences[q := key];
      return Fresh;
    }
    return if store.sequences[q] == key then AlreadySeenSamePayment else ReusedForDifferentPayment;
  }

  method RevokeDevice(store: Store, id: DeviceId, reason: Detail)
    modifies store`devices
    ensures store.devices == Revoke(old(store.devices), id, reason)
    ensures store.devices.Keys == old(store.devices.Keys)
    ensures forall other :: other in store.devices ==>
              store.devices[other] == if other == id
                then old(store.devices)[other].(state := Revoked, revokedReason := Some(reason))
                else old(store.devices)[other]
  {
    if id in store.devices {
      store.devices := store.devices[id := store.devices[id].(state := Revoked, revokedReason := Some(reason))];
    }
  }
}
