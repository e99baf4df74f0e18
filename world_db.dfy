/**
 * An in-memory stand-in for the world package's database handle: a key/value
 * map of byte strings and an open/closed flag. The world package is not part
 * of this model; it is replaced by this class so that the commands and the
 * HTTP handler can be checked for their open/close discipline. Every call is
 * recorded in a ghost log, which is what the callers' contracts speak about.
 * A store failure the real database could raise is an input (`fault`).
 */
module WorldDb {
  import opened Wrappers
  import opened Bytes

  type Key = seq<byte>
  type Value = seq<byte>

  datatype StoreError =
    | NotOpen            // an operation on a handle whose open failed
    | NotFound           // Get of a key that is not stored
    | Failed(msg: string)  // any other failure the database reports

  /** One call on the handle, as recorded in `Store.calls`. */
  datatype Call =
    | Open(path: string, succeeded: bool)
    | Close
    | ListKeys
    | Read(key: Key)
    | Write(key: Key, value: Value)
    | Remove(key: Key)

  /** Empty, or one failed open alone, or a successful open whose one close is the last call, with no open or close between. */
  predicate Balanced(calls: seq<Call>) {
    calls == [] ||
    (calls[0].Open? && !calls[0].succeeded && calls[1..] == []) ||
    (calls[0].Open? && calls[0].succeeded && |calls| >= 2 && calls[|calls| - 1] == Close &&
      forall i :: 0 < i < |calls| - 1 ==> !calls[i].Open? && calls[i] != Close)
  }

  class Store {
    var data: map<Key, Value>
    var isOpen: bool
    ghost var calls: seq<Call>

    constructor (contents: map<Key, Value>)
      ensures data == contents && !isOpen && calls == []
    {
      data := contents;
      isOpen := false;
      calls := [];
    }

    /** world.OpenWorld: opens the database at `path`; `fault` is the error it may report. */
    method Open(path: string, fault: Option<string>) returns (err: Option<StoreError>)
      requires !isOpen
      modifies this
      ensures isOpen <==> fault.None?
      ensures err == if fault.Some? then Some(Failed(fault.value)) else None
      ensures data == old(data) && calls == old(calls) + [Call.Open(path, fault.None?)]
    {
      if fault.Some? {
        err := Some(Failed(fault.value));
      } else {
        err := None;
        isOpen := true;
      }
      calls := calls + [Call.Open(path, fault.None?)];
    }

    /** World.Close; closing a handle that is not open has no effect besides being recorded. */
    method Close()
      modifies this
      ensures !isOpen && data == old(data) && calls == old(calls) + [Call.Close]
    {
      isOpen := false;
      calls := calls + [Call.Close];
    }

    /** World.GetKeys: every stored key exactly once, in the database's iteration order. */
    method GetKeys(fault: Option<string>) returns (r: Result<seq<Key>, StoreError>)
      modifies this`calls
      ensures calls == old(calls) + [ListKeys]
      ensures !isOpen ==> r == Err(NotOpen)
      ensures isOpen && fault.Some? ==> r == Err(Failed(fault.value))
      ensures isOpen && fault.None? ==> r.Ok?
      ensures r.Ok? ==> |r.value| == |data|
      ensures r.Ok? ==> forall k :: k in r.value <==> k in data
      ensures r.Ok? ==> forall i, j :: 0 <= i < j < |r.value| ==> r.value[i] != r.value[j]
    {
      calls := calls + [ListKeys];
      if !isOpen {
        return Err(NotOpen);
      }
      if fault.Some? {
        return Err(Failed(fault.value));
      }
      var keys: seq<Key> := [];
      var remaining := data.Keys;
      while remaining != {}
        invariant remaining <= data.Keys
        invariant forall k :: k in keys <==> k in data && k !in remaining
        invariant forall i, j :: 0 <= i < j < |keys| ==> keys[i] != keys[j]
        invariant |keys| + |remaining| == |data|
        decreases |remaining|
      {
        var k :| k in remaining;
        keys := keys + [k];
        remaining := remaining - {k};
      }
      return Ok(keys);
    }

    /** World.Get. */
    method Get(key: Key, fault: Option<string>) returns (r: Result<Value, StoreError>)
      modifies this`calls
      ensures calls == old(calls) + [Read(key)]
      ensures r == if !isOpen then Err(NotOpen)
                   else if fault.Some? then Err(Failed(fault.value))
                   else if key !in data then Err(NotFound)
                   else Ok(data[key])
    {
      calls := calls + [Read(key)];
      if !isOpen {
        r := Err(NotOpen);
      } else if fault.Some? {
        r := Err(Failed(fault.value));
      } else if key !in data {
        r := Err(NotFound);
      } else {
        r := Ok(data[key]);
      }
    }

    /** World.Put: on success the key maps to the value and nothing else changes. */
    method Put(key: Key, value: Value, fault: Option<string>) returns (err: Option<StoreError>)
      modifies this
      ensures isOpen == old(isOpen) && calls == old(calls) + [Write(key, value)]
      ensures err == if !isOpen then Some(NotOpen)
                     else if fault.Some? then Some(Failed(fault.value))
                     else None
      ensures data == if err.None? then old(data)[key := value] else old(data)
    {
      calls := calls + [Write(key, value)];
      if !isOpen {
        err := Some(NotOpen);
      } else if fault.Some? {
        err := Some(Failed(fault.value));
      } else {
        err := None;
        data := data[key := value];
      }
    }

    /** World.Delete: on success the key is absent and nothing else changes; deleting an absent key succeeds. */
    method Delete(key: Key, fault: Option<string>) returns (err: Option<StoreError>)
      modifies this
      ensures isOpen == old(isOpen) && calls == old(calls) + [Remove(key)]
      ensures err == if !isOpen then Some(NotOpen)
                     else if fault.Some? then Some(Failed(fault.value))
                     else None
      ensures data == if err.None? then old(data) - {key} else old(data)
    {
      calls := calls + [Remove(key)];
      if !isOpen {
        err := Some(NotOpen);
      } else if fault.Some? {
        err := Some(Failed(fault.value));
      } else {
        err := None;
        data := data - {key};
      }
    }
  }
}
