/**
 * The actions of the keys, get, put and delete commands (main.go). Each one
 * opens the world's database, translates its text arguments to bytes (keys in
 * lower-case hex, values in padded standard base64) and performs one database
 * operation, returning at the first error. Command-line parsing and standard
 * input are inputs; printed lines are returned.
 */
module Cli {
  import opened Wrappers
  import opened Bytes
  import Hex
  import Base64
  import opened WorldDb

  /** The error an action returns, by the step it comes from. */
  datatype CommandError =
    | DbFailure(err: StoreError)
    | BadKey(keyErr: Hex.HexError)
    | BadValue(valueErr: Base64.Base64Error)
    | StdinFailure(msg: string)

  /** One fmt.Println of the get command: a base64 line, or hex.Dump of the value. */
  datatype Output = Line(text: string) | Dump(bytes: seq<byte>)

  /** The lines of the keys command: one lower-case hex line per key, in the order given. */
  method PrintKeys(keys: seq<Key>) returns (lines: seq<string>)
    ensures |lines| == |keys|
    ensures forall i :: 0 <= i < |keys| ==> lines[i] == Hex.EncodeToString(keys[i])
    ensures forall i :: 0 <= i < |keys| ==> |lines[i]| == 2 * |keys[i]| && Hex.DecodeString(lines[i]) == Ok(keys[i])
  {
    lines := [];
    for i := 0 to |keys|
      invariant |lines| == i
      invariant forall j :: 0 <= j < i ==> lines[j] == Hex.EncodeToString(keys[j])
      invariant forall j :: 0 <= j < i ==> Hex.DecodeString(lines[j]) == Ok(keys[j])
    {
      Hex.RoundTrip(keys[i]);
      lines := lines + [Hex.EncodeToString(keys[i])];
    }
  }

  /** Lines printed for a listing of every stored key once cover the store and repeat no line. */
  lemma KeyLinesCoverStore(data: map<Key, Value>, keys: seq<Key>, lines: seq<string>)
    requires forall k :: k in keys <==> k in data
    requires |keys| == |lines|
    requires forall i :: 0 <= i < |keys| ==> lines[i] == Hex.EncodeToString(keys[i]) && Hex.DecodeString(lines[i]) == Ok(keys[i])
    requires forall i, j :: 0 <= i < j < |keys| ==> keys[i] != keys[j]
    ensures forall i :: 0 <= i < |lines| ==> Hex.DecodeString(lines[i]).Ok? && Hex.DecodeString(lines[i]).value in data
    ensures forall k :: k in data ==> Hex.EncodeToString(k) in lines
    ensures forall i, j :: 0 <= i < j < |lines| ==> lines[i] != lines[j]
  {
    forall k | k in data
      ensures Hex.EncodeToString(k) in lines
    {
      var i :| 0 <= i < |keys| && keys[i] == k;
      assert lines[i] == Hex.EncodeToString(k);
    }
  }

  /** The keys command: every stored key once, as hex that decodes back to it. */
  method Keys(path: string, db: Store, openFault: Option<string>, listFault: Option<string>)
    returns (lines: seq<string>, err: Option<CommandError>)
    requires !db.isOpen
    modifies db
    ensures !db.isOpen && db.data == old(db.data)
    ensures old(db.calls) <= db.calls && Balanced(db.calls[|old(db.calls)|..])
    ensures openFault.Some? ==>
      err == Some(DbFailure(Failed(openFault.value))) && lines == [] && db.calls == old(db.calls) + [Call.Open(path, false)]
    ensures openFault.None? ==> db.calls == old(db.calls) + [Call.Open(path, true), ListKeys, Call.Close]
    ensures openFault.None? && listFault.Some? ==> err == Some(DbFailure(Failed(listFault.value))) && lines == []
    ensures openFault.None? && listFault.None? ==> err.None?
    ensures err.None? ==> |lines| == |db.data|
    ensures err.None? ==> forall i :: 0 <= i < |lines| ==>
      Hex.DecodeString(lines[i]).Ok? && Hex.DecodeString(lines[i]).value in db.data
    ensures err.None? ==> forall k :: k in db.data ==> Hex.EncodeToString(k) in lines
    ensures err.None? ==> forall i, j :: 0 <= i < j < |lines| ==> lines[i] != lines[j]
  {
    lines := [];
    var openErr := db.Open(path, openFault);
    if openErr.Some? {
      return lines, Some(DbFailure(openErr.value));
    }
    var keys := db.GetKeys(listFault);
    if keys.Err? {
      db.Close();
      return lines, Some(DbFailure(keys.error));
    }
    lines := PrintKeys(keys.value);
    KeyLinesCoverStore(db.data, keys.value, lines);
    db.Close();
    err := None;
  }

  /** The get command: the stored value as padded base64 (or a hex dump when the dump flag reads "true"). */
  method Get(path: string, keyText: string, dump: string, db: Store, openFault: Option<string>, getFault: Option<string>)
    returns (out: seq<Output>, err: Option<CommandError>)
    requires !db.isOpen
    modifies db
    ensures !db.isOpen && db.data == old(db.data)
    ensures old(db.calls) <= db.calls && Balanced(db.calls[|old(db.calls)|..])
    ensures openFault.Some? ==>
      err == Some(DbFailure(Failed(openFault.value))) && out == [] && db.calls == old(db.calls) + [Call.Open(path, false)]
    ensures openFault.None? && Hex.DecodeString(keyText).Err? ==>
      err == Some(BadKey(Hex.DecodeString(keyText).error)) && out == [] &&
      db.calls == old(db.calls) + [Call.Open(path, true), Call.Close]
    ensures openFault.None? && Hex.DecodeString(keyText).Ok? ==>
      var key := Hex.DecodeString(keyText).value;
      db.calls == old(db.calls) + [Call.Open(path, true), Read(key), Call.Close] &&
      (getFault.Some? ==> err == Some(DbFailure(Failed(getFault.value))) && out == []) &&
      (getFault.None? && key !in db.data ==> err == Some(DbFailure(NotFound)) && out == []) &&
      (getFault.None? && key in db.data ==> err.None?)
    ensures err.None? ==> Hex.DecodeString(keyText).Ok? && Hex.DecodeString(keyText).value in db.data && |out| == 1
    ensures err.None? && dump == "true" ==> out == [Dump(db.data[Hex.DecodeString(keyText).value])]
    ensures err.None? && dump != "true" ==>
      out[0] == Line(Base64.EncodeToString(db.data[Hex.DecodeString(keyText).value])) &&
      Base64.DecodeString(out[0].text) == Ok(db.data[Hex.DecodeString(keyText).value])
  {
    out := [];
    var openErr := db.Open(path, openFault);
    if openErr.Some? {
      return out, Some(DbFailure(openErr.value));
    }
    var key := Hex.DecodeString(keyText);
    if key.Err? {
      db.Close();
      return out, Some(BadKey(key.error));
    }
    var value := db.Get(key.value, getFault);
    if value.Err? {
      db.Close();
      return out, Some(DbFailure(value.error));
    }
    if dump == "true" {
      out := [Dump(value.value)];
    } else {
      Base64.RoundTrip(value.value);
      out := [Line(Base64.EncodeToString(value.value))];
    }
    db.Close();
    err := None;
  }

  /**
   * The put command as written: the open error is overwritten by the key's
   * decoding error, and a bad key returns before the deferred Close is
   * registered, leaving a successfully opened handle open.
   */
  method Put(path: string, keyText: string, db: Store, openFault: Option<string>, stdin: Result<string, string>,
             putFault: Option<string>)
    returns (err: Option<CommandError>)
    requires !db.isOpen
    modifies db
    ensures Hex.DecodeString(keyText).Err? ==>
      err == Some(BadKey(Hex.DecodeString(keyText).error)) && db.data == old(db.data) &&
      db.isOpen == openFault.None? && db.calls == old(db.calls) + [Call.Open(path, openFault.None?)]
    ensures Hex.DecodeString(keyText).Err? && openFault.None? ==>
      old(db.calls) <= db.calls && !Balanced(db.calls[|old(db.calls)|..])
    ensures Hex.DecodeString(keyText).Ok? ==> !db.isOpen
    ensures Hex.DecodeString(keyText).Ok? && (stdin.Err? || Base64.DecodeString(stdin.value).Err?) ==>
      db.data == old(db.data) && db.calls == old(db.calls) + [Call.Open(path, openFault.None?), Call.Close]
    ensures Hex.DecodeString(keyText).Ok? && stdin.Err? ==> err == Some(StdinFailure(stdin.error))
    ensures Hex.DecodeString(keyText).Ok? && stdin.Ok? && Base64.DecodeString(stdin.value).Err? ==>
      err == Some(BadValue(Base64.DecodeString(stdin.value).error))
    ensures Hex.DecodeString(keyText).Ok? && stdin.Ok? && Base64.DecodeString(stdin.value).Ok? ==>
      var key := Hex.DecodeString(keyText).value;
      var value := Base64.DecodeString(stdin.value).value;
      db.calls == old(db.calls) + [Call.Open(path, openFault.None?), Write(key, value), Call.Close] &&
      err == (if openFault.Some? then Some(DbFailure(NotOpen))
              else if putFault.Some? then Some(DbFailure(Failed(putFault.value)))
              else None) &&
      db.data == if err.None? then old(db.data)[key := value] else old(db.data)
  {
    var _ := db.Open(path, openFault);
    var key := Hex.DecodeString(keyText);
    if key.Err? {
      return Some(BadKey(key.error));
    }
    if stdin.Err? {
      db.Close();
      return Some(StdinFailure(stdin.error));
    }
    var value := Base64.DecodeString(stdin.value);
    if value.Err? {
      db.Close();
      return Some(BadValue(value.error));
    }
    var putErr := db.Put(key.value, value.value, putFault);
    db.Close();
    if putErr.Some? {
      return Some(DbFailure(putErr.value));
    }
    return None;
  }

  /** The put command as evidently intended: the open error is checked, and Close follows every successful open. */
  method PutChecked(path: string, keyText: string, db: Store, openFault: Option<string>, stdin: Result<string, string>,
                    putFault: Option<string>)
    returns (err: Option<CommandError>)
    requires !db.isOpen
    modifies db
    ensures !db.isOpen && old(db.calls) <= db.calls && Balanced(db.calls[|old(db.calls)|..])
    ensures openFault.Some? ==>
      err == Some(DbFailure(Failed(openFault.value))) && db.data == old(db.data) &&
      db.calls == old(db.calls) + [Call.Open(path, false)]
    ensures openFault.None? && Hex.DecodeString(keyText).Err? ==>
      err == Some(BadKey(Hex.DecodeString(keyText).error)) && db.data == old(db.data) &&
      db.calls == old(db.calls) + [Call.Open(path, true), Call.Close]
    ensures openFault.None? && Hex.DecodeString(keyText).Ok? && stdin.Err? ==>
      err == Some(StdinFailure(stdin.error)) && db.data == old(db.data)
    ensures openFault.None? && Hex.DecodeString(keyText).Ok? && stdin.Ok? && Base64.DecodeString(stdin.value).Err? ==>
      err == Some(BadValue(Base64.DecodeString(stdin.value).error)) && db.data == old(db.data)
    ensures openFault.None? && Hex.DecodeString(keyText).Ok? && stdin.Ok? && Base64.DecodeString(stdin.value).Ok? ==>
      var key := Hex.DecodeString(keyText).value;
      var value := Base64.DecodeString(stdin.value).value;
      db.calls == old(db.calls) + [Call.Open(path, true), Write(key, value), Call.Close] &&
      err == (if putFault.Some? then Some(DbFailure(Failed(putFault.value))) else None) &&
      db.data == if err.None? then old(db.data)[key := value] else old(db.data)
  {
    var openErr := db.Open(path, openFault);
    if openErr.Some? {
      return Some(DbFailure(openErr.value));
    }
    var key := Hex.DecodeString(keyText);
    if key.Err? {
      db.Close();
      return Some(BadKey(key.error));
    }
    if stdin.Err? {
      db.Close();
      return Some(StdinFailure(stdin.error));
    }
    var value := Base64.DecodeString(stdin.value);
    if value.Err? {
      db.Close();
      return Some(BadValue(value.error));
    }
    var putErr := db.Put(key.value, value.value, putFault);
    db.Close();
    if putErr.Some? {
      return Some(DbFailure(putErr.value));
    }
    return None;
  }

  /** The delete command: on success the key is gone and every other entry is as it was. */
  method Delete(path: string, keyText: string, db: Store, openFault: Option<string>, deleteFault: Option<string>)
    returns (err: Option<CommandError>)
    requires !db.isOpen
    modifies db
    ensures !db.isOpen
    ensures old(db.calls) <= db.calls && Balanced(db.calls[|old(db.calls)|..])
    ensures openFault.Some? ==>
      err == Some(DbFailure(Failed(openFault.value))) && db.data == old(db.data) &&
      db.calls == old(db.calls) + [Call.Open(path, false)]
    ensures openFault.None? && Hex.DecodeString(keyText).Err? ==>
      err == Some(BadKey(Hex.DecodeString(keyText).error)) && db.data == old(db.data) &&
      db.calls == old(db.calls) + [Call.Open(path, true), Call.Close]
    ensures openFault.None? && Hex.DecodeString(keyText).Ok? ==>
      var key := Hex.DecodeString(keyText).value;
      db.calls == old(db.calls) + [Call.Open(path, true), Remove(key), Call.Close] &&
      err == (if deleteFault.Some? then Some(DbFailure(Failed(deleteFault.value))) else None) &&
      db.data == if err.None? then old(db.data) - {key} else old(db.data)
    ensures err.None? ==> Hex.DecodeString(keyText).Ok? && Hex.DecodeString(keyText).value !in db.data
  {
    var openErr := db.Open(path, openFault);
    if openErr.Some? {
      return Some(DbFailure(openErr.value));
    }
    var key := Hex.DecodeString(keyText);
    if key.Err? {
      db.Close();
      return Some(BadKey(key.error));
    }
    var deleteErr := db.Delete(key.value, deleteFault);
    db.Close();
    if deleteErr.Some? {
      return Some(DbFailure(deleteErr.value));
    }
    return None;
  }

  /** The put command as written, followed by a get of the same key, prints the base64 encoding of exactly the bytes supplied. */
  method PutThenGet(path: string, keyText: string, valueText: string, db: Store) returns (out: seq<Output>)
    requires !db.isOpen
    requires Hex.DecodeString(keyText).Ok? && Base64.DecodeString(valueText).Ok?
    modifies db
    ensures |out| == 1 && out[0] == Line(Base64.EncodeToString(Base64.DecodeString(valueText).value))
    ensures Base64.DecodeString(out[0].text) == Base64.DecodeString(valueText)
    ensures db.data == old(db.data)[Hex.DecodeString(keyText).value := Base64.DecodeString(valueText).value]
  {
    var putErr := Put(path, keyText, db, None, Ok(valueText), None);
    var getErr;
    out, getErr := Get(path, keyText, "false", db, None, None);
  }

  /** A delete followed by a get of the same key reports that the key is not found. */
  method DeleteThenGet(path: string, keyText: string, db: Store) returns (err: Option<CommandError>)
    requires !db.isOpen && Hex.DecodeString(keyText).Ok?
    modifies db
    ensures err == Some(DbFailure(NotFound))
    ensures db.data == old(db.data) - {Hex.DecodeString(keyText).value}
  {
    var deleteErr := Delete(path, keyText, db, None, None);
    var out;
    out, err := Get(path, keyText, "false", db, None, None);
  }

  /** A witness: the put command as written, given a key that is not hex, leaves the opened handle open. */
  method PutLeaksOnBadKey() returns (stillOpen: bool, err: Option<CommandError>)
    ensures stillOpen && err == Some(BadKey(Hex.InvalidByte('z')))
  {
    var db := new Store(map[]);
    err := Put("worlds/w", "zz", db, None, Ok("AAAA"), None);
    stillOpen := db.isOpen;
  }

  /** The witness for the corrected command: the same call closes the handle. */
  method PutCheckedClosesOnBadKey() returns (stillOpen: bool, err: Option<CommandError>)
    ensures !stillOpen && err == Some(BadKey(Hex.InvalidByte('z')))
  {
    var db := new Store(map[]);
    err := PutChecked("worlds/w", "zz", db, None, Ok("AAAA"), None);
    stillOpen := db.isOpen;
  }

  /** A witness: the put command as written, on a world that fails to open, returns an error that is not the open error. */
  method PutLosesOpenError() returns (err: Option<CommandError>)
    ensures err == Some(DbFailure(NotOpen))
  {
    var db := new Store(map[]);
    err := Put("worlds/w", "00", db, Some("resource temporarily unavailable"), Ok("AAAA"), None);
  }

  /** The witness for the corrected command: the same call reports the open error. */
  method PutCheckedReportsOpenError() returns (err: Option<CommandError>)
    ensures err == Some(DbFailure(Failed("resource temporarily unavailable")))
  {
    var db := new Store(map[]);
    err := PutChecked("worlds/w", "00", db, Some("resource temporarily unavailable"), Ok("AAAA"), None);
  }
}
