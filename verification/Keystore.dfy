/** apps/server/src/keystore.js: the stored server keys, and the ring loaded from them. */
module Keystore {
  import opened Bytes
  import opened KeyRing
  import opened Wrappers

  /** A row of server_keys. */
  datatype StoredKey = StoredKey(privateKey: bytes, retired: bool)
  type Rows = map<int, StoredKey>

  lemma Inhabited(s: set<int>)
    ensures s == {} || exists x :: x in s
  {
    if !exists x :: x in s {
      assert s == {};
    }
  }

  lemma {:induction false} LargestExists(s: set<int>)
    requires s != {}
    ensures exists m :: m in s && forall x :: x in s ==> x <= m
  {
    Inhabited(s);
    var x :| x in s;
    var rest, top := s - {x}, x;
    if rest != {} {
      LargestExists(rest);
      var m :| m in rest && forall y :: y in rest ==> y <= m;
      top := if m > x then m else x;
    }
    assert forall y :: y in s ==> y == x || y in rest;
    assert top in s && forall y :: y in s ==> y <= top;
  }

  function Largest(s: set<int>): (m: int)
    requires s != {}
    ensures m in s && forall x :: x in s ==> x <= m
  {
    LargestExists(s);
    var m :| m in s && forall x :: x in s ==> x <= m;
    m
  }

  function Live(rows: Rows): set<int> {
    set id | id in rows && !rows[id].retired
  }

  /** The ring of the live rows, each public key computed afresh, under the highest id. */
  function RingOf(publicOf: bytes -> bytes, rows: Rows): Ring
    requires Live(rows) != {}
  {
    Ring(map id | id in Live(rows) :: ServerKey(rows[id].privateKey, publicOf(rows[id].privateKey)),
        Largest(Live(rows)))
  }

  /** The keys of exactly the rows that are not retired, and the highest of their ids current. */
  ghost predicate IsLoaded(ring: Ring, publicOf: bytes -> bytes, rows: Rows) {
    && (forall id :: id in ring.keys <==> id in rows && !rows[id].retired)
    && (forall id :: id in ring.keys ==>
          ring.keys[id] == ServerKey(rows[id].privateKey, publicOf(rows[id].privateKey)))
    && ring.currentKeyId in ring.keys && (forall id :: id in ring.keys ==> id <= ring.currentKeyId)
  }

  function NextId(rows: Rows): int {
    if rows == map[] then 1 else Largest(rows.Keys) + 1
  }

  class KeyStore {
    const publicOf: bytes -> bytes
    var rows: Rows

    constructor (publicOf: bytes -> bytes)
      ensures this.publicOf == publicOf && rows == map[]
    {
      this.publicOf := publicOf;
      rows := map[];
    }

    /** INSERT INTO server_keys; Err when the id is taken. */
    method Insert(id: int, privateKey: bytes) returns (r: Outcome<string>)
      modifies this`rows
      ensures r.Pass? <==> id !in old(rows)
      ensures rows == if r.Pass? then old(rows)[id := StoredKey(privateKey, false)] else old(rows)
    {
      if id in rows {
        return Fail("duplicate key_id");
      }
      rows := rows[id := StoredKey(privateKey, false)];
      return Pass;
    }

    /** loadKeyRing: with no live key, the first is made. */
    method LoadKeyRing(newKey: bytes) returns (r: Result<Ring, string>)
      modifies this`rows
      ensures r.Ok? <==> Live(old(rows)) != {} || 1 !in old(rows)
      ensures rows == if Live(old(rows)) == {} && r.Ok? then old(rows)[1 := StoredKey(newKey, false)] else old(rows)
      ensures r.Ok? ==> Live(rows) != {} && r.value == RingOf(publicOf, rows) && IsLoaded(r.value, publicOf, rows)
    {
      if Live(rows) == {} {
        :- Insert(1, newKey);
        assert Live(rows) == {1};
      }
      return Ok(RingOf(publicOf, rows));
    }

    /** rotate */
    method Rotate(newKey: bytes, spare: bytes) returns (r: Result<Ring, string>)
      modifies this`rows
      ensures rows == old(rows)[NextId(old(rows)) := StoredKey(newKey, false)]
      ensures Live(rows) != {} && r == Ok(RingOf(publicOf, rows))
      ensures r.Ok? && IsLoaded(r.value, publicOf, rows)
      ensures var id := r.value.currentKeyId;
              && (forall other :: other in old(rows) ==> other < id)
              && (if old(rows) == map[] then id == 1 else id - 1 in old(rows))
              && rows == old(rows)[id := StoredKey(newKey, false)]
    {
      var next := NextId(rows);
      var inserted := Insert(next, newKey);
      assert next in Live(rows);
      r := LoadKeyRing(spare);
    }
  }

  /** Rotating the store is rotating the ring: no stored key changes, and the ring loaded before is extended. */
  lemma RotationGrowsTheRing(publicOf: bytes -> bytes, rows: Rows, newKey: bytes)
    requires Live(rows) != {}
    ensures var next := NextId(rows);
            var after := rows[next := StoredKey(newKey, false)];
            && next !in rows && Live(after) == Live(rows) + {next}
            && WithRotatedKey(RingOf(publicOf, rows), next, ServerKey(newKey, publicOf(newKey)))
                == Ok(RingOf(publicOf, after))
            && RingOf(publicOf, after).Valid() && Extends(RingOf(publicOf, after), RingOf(publicOf, rows))
  {
    var next := NextId(rows);
    var after := rows[next := StoredKey(newKey, false)];
    assert next !in rows;
    assert Live(after) == Live(rows) + {next};
    assert forall id :: id in Live(rows) ==> id in rows.Keys && id < next;
    assert Largest(Live(after)) == next;
    var ring, grown := RingOf(publicOf, rows), RingOf(publicOf, after);
    assert grown.keys == ring.keys[next := ServerKey(newKey, publicOf(newKey))];
  }

  predicate IsRotation(before: Rows, after: Rows, newKey: bytes) {
    after == before[NextId(before) := StoredKey(newKey, false)]
  }

  ghost predicate Rotated(before: Rows, after: Rows) {
    exists newKey :: IsRotation(before, after, newKey)
  }

  /** The stored keys, rotation by rotation. */
  ghost predicate Rotations(history: seq<Rows>) {
    && history != [] && Live(history[0]) != {}
    && forall i :: 0 < i < |history| ==> Rotated(history[i - 1], history[i])
  }

  lemma OneRotation(publicOf: bytes -> bytes, before: Rows, after: Rows)
    requires Live(before) != {} && Rotated(before, after)
    ensures Live(after) != {}
    ensures Extends(RingOf(publicOf, after), RingOf(publicOf, before))
    ensures RingOf(publicOf, after).currentKeyId > RingOf(publicOf, before).currentKeyId
  {
    var newKey :| IsRotation(before, after, newKey);
    RotationGrowsTheRing(publicOf, before, newKey);
  }

  /** The ring loaded after any number of rotations and restarts extends every ring loaded before. */
  lemma {:induction false} EveryLaterRingExtends(publicOf: bytes -> bytes, history: seq<Rows>, i: nat, j: nat)
    requires Rotations(history) && i <= j < |history|
    ensures Live(history[i]) != {} && Live(history[j]) != {}
    ensures Extends(RingOf(publicOf, history[j]), RingOf(publicOf, history[i]))
    ensures i < j ==> RingOf(publicOf, history[j]).currentKeyId > RingOf(publicOf, history[i]).currentKeyId
    decreases j, i
  {
    if i < j {
      EveryLaterRingExtends(publicOf, history, i, j - 1);
      assert Rotated(history[j - 1], history[j]);
      OneRotation(publicOf, history[j - 1], history[j]);
      ExtendsTransitive(RingOf(publicOf, history[j]), RingOf(publicOf, history[j - 1]), RingOf(publicOf, history[i]));
    } else if i > 0 {
      EveryLaterRingExtends(publicOf, history, i - 1, i - 1);
      assert Rotated(history[i - 1], history[i]);
      OneRotation(publicOf, history[i - 1], history[i]);
    }
  }
}
