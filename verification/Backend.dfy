/**
 The in-memory backend (src/synthetic_backend.cpp): staged writes that become objects on commit.
 Whether the environment lets a call through is an input of each operation, so that every
 pattern of failures is covered.
 */
module Backend {
  import opened Basics
  import opened Model

  /** A staged write is named by the serial number its temporary object got. */
  datatype Store = Store(objects: map<string, Bytes>, temps: map<nat, Bytes>, staged: map<string, nat>, serial: nat)

  function PutTemp(b: Store, key: string, data: Bytes): Store
  {
    var n := b.serial + 1;
    Store(b.objects, b.temps[n := data], b.staged[key := n], n)
  }

  predicate CanCommit(b: Store, key: string) { key in b.staged && b.staged[key] in b.temps }

  function Commit(b: Store, key: string): Store
    requires CanCommit(b, key)
  {
    var n := b.staged[key];
    Store(b.objects[key := b.temps[n]], b.temps - {n}, b.staged - {key}, b.serial)
  }

  function Remove(b: Store, key: string): Store { b.(objects := b.objects - {key}) }

  /** The object under the key has the expected digest. */
  predicate Holds(hash: Bytes -> Digest, objects: map<string, Bytes>, key: string, expected: Digest)
  {
    key in objects && hash(objects[key]) == expected
  }

  function VerifyObject(hash: Bytes -> Digest, b: Store, key: string, expected: Digest, up: bool): Byte
  {
    if !up then INTEGRITY_UNKNOWN
    else if key !in b.objects then INTEGRITY_MISSING
    else if Holds(hash, b.objects, key, expected) then INTEGRITY_VERIFIED
    else INTEGRITY_CORRUPT
  }

  /** A write that goes through replaces exactly one object and leaves nothing staged under its key. */
  lemma PutThenCommit(b: Store, key: string, data: Bytes)
    ensures CanCommit(PutTemp(b, key, data), key)
    ensures Commit(PutTemp(b, key, data), key).objects == b.objects[key := data]
  {
  }

  class SyntheticBackend {
    var objects: map<string, Bytes>
    var temps: map<nat, Bytes>
    var staged: map<string, nat>
    var serial: nat

    function View(): Store
      reads this
    {
      Store(objects, temps, staged, serial)
    }

    constructor ()
      ensures View() == Store(map[], map[], map[], 0)
    {
      objects, temps, staged, serial := map[], map[], map[], 0;
    }

    method Put(key: string, data: Bytes, up: bool) returns (r: Option<Error>)
      modifies this
      ensures r == if up then None else Some(BackendUnavailable)
      ensures View() == if up then PutTemp(old(View()), key, data) else old(View())
    {
      if !up {
        return Some(BackendUnavailable);
      }
      serial := serial + 1;
      temps := temps[serial := data];
      staged := staged[key := serial];
      return None;
    }

    method CommitKey(key: string, up: bool) returns (r: Option<Error>)
      modifies this
      ensures r == (if key !in old(staged) then Some(Transaction)
                    else if !up then Some(BackendUnavailable)
                    else if old(staged)[key] !in old(temps) then Some(Transaction) else None)
      ensures View() == if r == None then Commit(old(View()), key) else old(View())
    {
      if key !in staged {
        return Some(Transaction);
      }
      var temp := staged[key];
      if !up {
        return Some(BackendUnavailable);
      }
      if temp !in temps {
        return Some(Transaction);
      }
      objects := objects[key := temps[temp]];
      temps := temps - {temp};
      staged := staged - {key};
      return None;
    }

    method Read(key: string, up: bool) returns (r: Result<Bytes, Error>)
      ensures r == (if !up then Err(BackendUnavailable)
                    else if key in objects then Ok(objects[key]) else Err(NotFound))
    {
      if !up {
        return Err(BackendUnavailable);
      }
      if key !in objects {
        return Err(NotFound);
      }
      return Ok(objects[key]);
    }

    /** Removes the object unless the environment refuses; returns whether an object went. */
    method RemoveKey(key: string, up: bool) returns (removed: bool)
      modifies this
      ensures removed <==> up && key in old(objects)
      ensures View() == if removed then Remove(old(View()), key) else old(View())
    {
      removed := up && key in objects;
      if removed {
        objects := objects - {key};
      }
    }

    method Verify(hash: Bytes -> Digest, key: string, expected: Digest, up: bool) returns (r: Byte)
      ensures r == VerifyObject(hash, View(), key, expected, up)
    {
      if !up {
        return INTEGRITY_UNKNOWN;
      }
      if key !in objects {
        return INTEGRITY_MISSING;
      }
      var digest := hash(objects[key]);
      return if digest == expected then INTEGRITY_VERIFIED else INTEGRITY_CORRUPT;
    }
  }
}
