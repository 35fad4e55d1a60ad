/**
 The atomic primitives of server-game/src/redis/redis-client.ts.

 A keyspace is a map updated in place. Only the effect of a command on the keyspace is modelled here;
 expiry and lost replies belong to the protocol that uses it (module HandOff).
 */
module Redis {
  import opened Wrappers

  /** One line of an atomic replacement; `expected == None` demands that the key is absent. */
  datatype Replacement<K, V> = Replacement(key: K, expected: Option<V>, value: V, ttlMs: int)

  /** What the caller of `compareAndSetMany` sees: an exception, false or true. */
  datatype BatchOutcome = Invalid | Refused | Replaced

  function Lookup<K, V>(values: map<K, V>, key: K): Option<V> {
    if key in values then Some(values[key]) else None
  }

  /** The client-side check: no key twice, every lifetime positive. */
  predicate WellFormed<K(==), V>(batch: seq<Replacement<K, V>>) {
    && (forall i, j :: 0 <= i < j < |batch| ==> batch[i].key != batch[j].key)
    && (forall i :: 0 <= i < |batch| ==> batch[i].ttlMs > 0)
  }

  /** Every key currently holds what the batch expects of it. */
  predicate Matches<K, V(==)>(values: map<K, V>, batch: seq<Replacement<K, V>>) {
    forall i :: 0 <= i < |batch| ==> Lookup(values, batch[i].key) == batch[i].expected
  }

  /** The keyspace after writing every line of the batch in order. */
  function Written<K, V>(values: map<K, V>, batch: seq<Replacement<K, V>>): map<K, V>
    decreases |batch|
  {
    if batch == [] then values
    else Written(values[batch[0].key := batch[0].value], batch[1..])
  }

  predicate Touches<K(==), V>(batch: seq<Replacement<K, V>>, key: K) {
    exists i :: 0 <= i < |batch| && batch[i].key == key
  }

  /** A key outside the batch keeps its value. */
  lemma {:induction false} WrittenElsewhere<K, V>(values: map<K, V>, batch: seq<Replacement<K, V>>, key: K)
    requires !Touches(batch, key)
    ensures Lookup(Written(values, batch), key) == Lookup(values, key)
    decreases |batch|
  {
    if batch != [] {
      assert batch[0].key != key;
      forall i | 0 <= i < |batch[1..]| ensures batch[1..][i].key != key {
        assert batch[1..][i] == batch[i + 1];
      }
      WrittenElsewhere(values[batch[0].key := batch[0].value], batch[1..], key);
    }
  }

  /** In a well-formed batch each line decides its own key: later lines never overwrite earlier ones. */
  lemma {:induction false} WrittenAt<K, V>(values: map<K, V>, batch: seq<Replacement<K, V>>, i: nat)
    requires WellFormed(batch) && i < |batch|
    ensures Lookup(Written(values, batch), batch[i].key) == Some(batch[i].value)
    decreases |batch|
  {
    var next := values[batch[0].key := batch[0].value];
    if i == 0 {
      WrittenElsewhere(next, batch[1..], batch[0].key);
    } else {
      WrittenAt(next, batch[1..], i - 1);
    }
  }

  lemma {:induction false} WrittenSnoc<K, V>(values: map<K, V>, batch: seq<Replacement<K, V>>, i: nat)
    requires i < |batch|
    ensures Written(values, batch[..i + 1]) == Written(values, batch[..i])[batch[i].key := batch[i].value]
    decreases |batch|
  {
    if i == 0 {
      assert batch[..1][1..] == [];
      assert batch[..0] == [];
    } else {
      WrittenSnoc(values[batch[0].key := batch[0].value], batch[1..], i - 1);
      assert batch[..i + 1][1..] == batch[1..][..i];
      assert batch[..i][1..] == batch[1..][..i - 1];
    }
  }

  class Keyspace<K(==), V(==)> {
    var values: map<K, V>

    constructor ()
      ensures values == map[]
    {
      values := map[];
    }

    method SetIfAbsent(key: K, value: V) returns (done: bool)
      modifies this
      ensures done <==> key !in old(values)
      ensures values == if done then old(values)[key := value] else old(values)
    {
      done := key !in values;
      if done {
        values := values[key := value];
      }
    }

    method CompareAndSet(key: K, expected: V, value: V) returns (done: bool)
      modifies this
      ensures done <==> Lookup(old(values), key) == Some(expected)
      ensures values == if done then old(values)[key := value] else old(values)
    {
      done := key in values && values[key] == expected;
      if done {
        values := values[key := value];
      }
    }

    method CompareAndDelete(key: K, expected: V) returns (done: bool)
      modifies this
      ensures done <==> Lookup(old(values), key) == Some(expected)
      ensures values == if done then old(values) - {key} else old(values)
    {
      done := key in values && values[key] == expected;
      if done {
        values := values - {key};
      }
    }

    /** The Lua script: every key is checked before the first write, so the batch is all or nothing. */
    method CompareAndSetMany(batch: seq<Replacement<K, V>>) returns (outcome: BatchOutcome)
      modifies this
      ensures outcome == Invalid <==> batch != [] && !WellFormed(batch)
      ensures outcome == Replaced <==> batch == [] || (WellFormed(batch) && Matches(old(values), batch))
      ensures outcome != Replaced ==> values == old(values)
      ensures outcome == Replaced ==>
        && (forall i :: 0 <= i < |batch| ==> Lookup(values, batch[i].key) == Some(batch[i].value))
        && (forall key :: !Touches(batch, key) ==> Lookup(values, key) == Lookup(old(values), key))
      ensures outcome == Replaced ==> values == Written(old(values), batch)
    {
      if batch == [] {
        return Replaced;
      }
      if !WellFormed(batch) {
        return Invalid;
      }
      for i := 0 to |batch|
        invariant values == old(values)
        invariant forall j :: 0 <= j < i ==> Lookup(values, batch[j].key) == batch[j].expected
      {
        if Lookup(values, batch[i].key) != batch[i].expected {
          return Refused;
        }
      }
      for i := 0 to |batch|
        invariant values == Written(old(values), batch[..i])
      {
        WrittenSnoc(old(values), batch, i);
        values := values[batch[i].key := batch[i].value];
      }
      assert batch[..|batch|] == batch;
      forall i | 0 <= i < |batch| ensures Lookup(values, batch[i].key) == Some(batch[i].value) {
        WrittenAt(old(values), batch, i);
      }
      forall key | !Touches(batch, key) ensures Lookup(values, key) == Lookup(old(values), key) {
        WrittenElsewhere(old(values), batch, key);
      }
      return Replaced;
    }
  }
}
