/** apps/server/src/receipts.js: the stored answer to a payment. */
module Receipts {
  import opened Wrappers
  import opened Tables
  import opened Claims

  function ReceiptFor(verdict: Verdict): Receipt {
    match verdict
    case Settle(entry) => Receipt(SettledOutcome, None, Blank, if entry == 0 then None else Some(entry))
    case Refuse(code, detail) => Receipt(RejectedOutcome, Some(code), detail, None)
  }

  /** INSERT .. ON CONFLICT DO NOTHING: the first receipt for a payment stays. */
  function Issued(receipts: map<Key, Receipt>, key: Key, verdict: Verdict): map<Key, Receipt> {
    if key in receipts then receipts else receipts[key := ReceiptFor(verdict)]
  }

  method Issue(store: Store, key: Key, verdict: Verdict)
    modifies store`receipts
    ensures store.receipts == Issued(old(store.receipts), key, verdict)
    ensures store.receipts.Keys == old(store.receipts.Keys) + {key}
    ensures forall k :: k in old(store.receipts) ==> store.receipts[k] == old(store.receipts)[k]
    ensures key !in old(store.receipts) ==>
              match verdict
              case Settle(entry) =>
                store.receipts[key] == Receipt(SettledOutcome, None, Blank, if entry == 0 then None else Some(entry))
              case Refuse(code, detail) => store.receipts[key] == Receipt(RejectedOutcome, Some(code), detail, None)
  {
    if key !in store.receipts {
      store.receipts := store.receipts[key := ReceiptFor(verdict)];
    }
  }
}
