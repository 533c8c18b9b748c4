/** packages/protocol/src/keyring.js: the service's X25519 keys, by id. */
module KeyRing {
  import opened Bytes
  import opened Wrappers

  datatype ServerKey = ServerKey(privateKey: bytes, publicKey: bytes)

  /** An immutable ring; every operation returns a new one. */
  datatype Ring = Ring(keys: map<int, ServerKey>, currentKeyId: int) {
    predicate Valid() {
      currentKeyId in keys
    }
  }

  function LookupKey(ring: Ring, id: int): Option<ServerKey> {
    Lookup(ring.keys, id)
  }

  /** Err when the new id is already in the ring. */
  function WithRotatedKey(ring: Ring, id: int, key: ServerKey): Result<Ring, ()> {
    if id in ring.keys then Err(()) else Ok(Ring(ring.keys[id := key], id))
  }

  /** Err when asked to retire the current key. */
  function WithRetired(ring: Ring, id: int): Result<Ring, ()> {
    if id == ring.currentKeyId then Err(()) else Ok(Ring(ring.keys - {id}, ring.currentKeyId))
  }

  /** Every key of the smaller ring is in the larger one, under the same id. */
  predicate Extends(larger: Ring, smaller: Ring) {
    forall id :: id in smaller.keys ==> id in larger.keys && larger.keys[id] == smaller.keys[id]
  }

  /** Rotation keeps every key and only the current one changes; retiring undoes it exactly. */
  lemma RotationExtends(ring: Ring, id: int, key: ServerKey)
    requires ring.Valid() && WithRotatedKey(ring, id, key).Ok?
    ensures var rotated := WithRotatedKey(ring, id, key).value;
            && rotated.Valid() && Extends(rotated, ring)
            && LookupKey(rotated, rotated.currentKeyId) == Some(key)
            && WithRotatedKey(rotated, id, key).Err? && WithRetired(rotated, id).Err?
            && WithRetired(Ring(rotated.keys, ring.currentKeyId), id) == Ok(ring)
  {
    assert ring.keys[id := key] - {id} == ring.keys;
  }

  lemma ExtendsTransitive(a: Ring, b: Ring, c: Ring)
    requires Extends(a, b) && Extends(b, c)
    ensures Extends(a, c)
  {
    forall id | id in c.keys
      ensures id in a.keys && a.keys[id] == c.keys[id]
    {
      assert id in b.keys;
    }
  }
}
