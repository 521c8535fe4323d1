/** The object-storage contract (storage/store.go): atomic create-if-absent over immutable objects,
    with read-after-write and list consistency. A store is seen as one bucket per key prefix. */
module ObjectStore {
  import opened Basics
  import opened Sorting

  /** Failed covers every error other than a conflict. The caller cannot tell whether the object
      was written before the response was lost. */
  datatype Outcome = Created | AlreadyPresent | Conflict | Failed

  datatype Miss = NotFound | Unavailable

  /** What one PutIfAbsent may do to a bucket. */
  ghost predicate Put<K, V>(before: map<K, V>, key: K, data: V, outcome: Outcome, after: map<K, V>) {
    match outcome
    case Created => key !in before && after == before[key := data]
    case AlreadyPresent => key in before && before[key] == data && after == before
    case Conflict => key in before && before[key] != data && after == before
    case Failed => after == before || (key !in before && after == before[key := data])
  }

  ghost predicate Grows<K, V>(before: map<K, V>, after: map<K, V>) {
    forall k | k in before :: k in after && after[k] == before[k]
  }

  class Bucket<K(==, !new), V(==, !new)> {
    var objects: map<K, V>
    /** When set, no operation fails for transport reasons. */
    const reliable: bool

    constructor (reliable: bool)
      ensures objects == map[] && this.reliable == reliable
    {
      objects := map[];
      this.reliable := reliable;
    }

    method PutIfAbsent(key: K, data: V) returns (outcome: Outcome)
      modifies this
      ensures Put(old(objects), key, data, outcome, objects)
      ensures reliable ==> !outcome.Failed?
    {
      if key in objects {
        outcome := if objects[key] == data then AlreadyPresent else Conflict;
      } else {
        var lost := *;
        if !reliable && lost {
          if * { objects := objects[key := data]; }
          outcome := Failed;
        } else {
          objects := objects[key := data];
          outcome := Created;
        }
      }
    }

    method Get(key: K) returns (r: Result<V, Miss>)
      ensures r.Ok? ==> key in objects && r.value == objects[key]
      ensures r == Err(NotFound) ==> key !in objects
      ensures reliable && key in objects ==> r.Ok?
    {
      if key !in objects { return Err(NotFound); }
      var lost := *;
      if !reliable && lost { return Err(Unavailable); }
      r := Ok(objects[key]);
    }

    /** Every key under a prefix, once, in an order the caller may not rely on: keys are hashes. */
    method List(prefix: K -> bool) returns (r: Result<seq<K>, Miss>)
      ensures r.Ok? ==> NoDuplicates(r.value) && Elements(r.value) == set k | k in objects && prefix(k)
      ensures r.Ok? ==> forall k | k in r.value :: k in objects
      ensures reliable ==> r.Ok?
    {
      var lost := *;
      if !reliable && lost { return Err(Unavailable); }
      var pending := objects.Keys;
      var keys: seq<K> := [];
      while pending != {}
        invariant pending <= objects.Keys && Elements(keys) == (set k | k in objects && k !in pending && prefix(k))
        invariant NoDuplicates(keys)
        decreases pending
      {
        var k :| k in pending;
        if prefix(k) {
          assert k !in Elements(keys);
          assert Elements(keys + [k]) == Elements(keys) + {k};
          keys := keys + [k];
        }
        pending := pending - {k};
      }
      assert forall k | k in keys :: k in Elements(keys);
      r := Ok(keys);
    }
  }
}
