/**
 * The key-value store behind the API.
 *
 * `Backend` stands for the `Storer` the service is given (Redis in production,
 * a generated mock in the unit tests): a map from `from` paths to `to` paths,
 * plus, for each operation, an error it can be told to return instead of
 * succeeding. It records every call it receives, as the mock does, so that the
 * handlers' contracts can say which store calls they make.
 *
 * `Datastore` is the façade of `store/datastore.go`: it holds nothing but its
 * backend and passes every call straight through.
 */
module Store {
  import opened Wrappers
  import opened GoStrings

  /** One call received by the backend, with its arguments. */
  datatype Call =
    | GetValueCall(key: GoString)
    | SetValueCall(key: GoString, value: GoString, expiration: int)
    | DeleteValueCall(key: GoString)
    | GetKeyValuePairsCall(count: int, cursor: nat)
    | GetTotalKeysCall

  /** What one scan step of the backend answers: some pairs and the next cursor, or an error. */
  datatype ScanReply = Scanned(pairs: map<GoString, GoString>, next: nat) | ScanFailed(err: GoString)

  /** The error text the backend gives for a key it does not hold. */
  function KeyNotFound(key: GoString): GoString {
    "key " + key + " not found"
  }

  /**
   * What `GetValue(key)` answers for the given map and injected fault: the
   * value and a nil error, or the empty string and an error text.
   */
  function ValueReply(data: map<GoString, GoString>, fault: Option<GoString>, key: GoString): (r: (GoString, Option<GoString>))
    ensures r.1.None? <==> fault.None? && key in data
    ensures r.1.None? ==> r.0 == data[key]
    ensures r.1.Some? ==> r.0 == []
  {
    if fault.Some? then ([], fault)
    else if key in data then (data[key], None)
    else ([], Some(KeyNotFound(key)))
  }

  /** A key the backend does not hold is reported with an error naming it, which contains "not found". */
  lemma AbsentKeyReply(data: map<GoString, GoString>, key: GoString)
    requires key !in data
    ensures ValueReply(data, None, key).1 == Some(KeyNotFound(key))
    ensures Contains(KeyNotFound(key), KeyNotFound(key))
    ensures Contains(KeyNotFound(key), "not found")
  {
    ContainsItself(KeyNotFound(key));
    assert KeyNotFound(key) == ("key " + key) + " not found";
    ContainsSuffix("key " + key, " not found");
    var s := KeyNotFound(key);
    assert OccursAt(s, "not found", |s| - 9);
  }

  class Backend {
    var data: map<GoString, GoString>
    var getFault: Option<GoString>
    var setFault: Option<GoString>
    var deleteFault: Option<GoString>
    var scanReply: ScanReply
    var totalFault: Option<GoString>
    ghost var calls: seq<Call>

    /** A healthy backend holding `data`. */
    constructor (data: map<GoString, GoString>)
      ensures this.data == data && calls == []
      ensures getFault == setFault == deleteFault == totalFault == None
      ensures scanReply == Scanned(map[], 0)
    {
      this.data := data;
      getFault, setFault, deleteFault, totalFault := None, None, None, None;
      scanReply := Scanned(map[], 0);
      calls := [];
    }

    /** What `GetValue(key)` answers in the current state. */
    function Lookup(key: GoString): (GoString, Option<GoString>)
      reads this`data, this`getFault
    {
      ValueReply(data, getFault, key)
    }

    method GetValue(key: GoString) returns (value: GoString, err: Option<GoString>)
      modifies this`calls
      ensures (value, err) == Lookup(key)
      ensures calls == old(calls) + [GetValueCall(key)]
    {
      value, err := Lookup(key).0, Lookup(key).1;
      calls := calls + [GetValueCall(key)];
    }

    method SetValue(key: GoString, value: GoString, expiration: int) returns (err: Option<GoString>)
      modifies this`data, this`calls
      ensures err == setFault
      ensures data == if err.None? then old(data)[key := value] else old(data)
      ensures calls == old(calls) + [SetValueCall(key, value, expiration)]
    {
      err := setFault;
      if err.None? {
        data := data[key := value];
      }
      calls := calls + [SetValueCall(key, value, expiration)];
    }

    /** Deleting a key that is not there is not an error. */
    method DeleteValue(key: GoString) returns (err: Option<GoString>)
      modifies this`data, this`calls
      ensures err == deleteFault
      ensures data == if err.None? then old(data) - {key} else old(data)
      ensures calls == old(calls) + [DeleteValueCall(key)]
    {
      err := deleteFault;
      if err.None? {
        data := data - {key};
      }
      calls := calls + [DeleteValueCall(key)];
    }

    /** One scan step; which pairs it yields and the cursor it returns are the backend's business. */
    method GetKeyValuePairs(count: int, cursor: nat) returns (pairs: map<GoString, GoString>, next: nat, err: Option<GoString>)
      modifies this`calls
      ensures scanReply.Scanned? ==> pairs == scanReply.pairs && next == scanReply.next && err == None
      ensures scanReply.ScanFailed? ==> pairs == map[] && next == 0 && err == Some(scanReply.err)
      ensures calls == old(calls) + [GetKeyValuePairsCall(count, cursor)]
    {
      match scanReply {
        case Scanned(p, n) => pairs, next, err := p, n, None;
        case ScanFailed(e) => pairs, next, err := map[], 0, Some(e);
      }
      calls := calls + [GetKeyValuePairsCall(count, cursor)];
    }

    /** The number of keys held. */
    method GetTotalKeys() returns (total: int, err: Option<GoString>)
      modifies this`calls
      ensures err == totalFault
      ensures total == if err.None? then |data| else 0
      ensures calls == old(calls) + [GetTotalKeysCall]
    {
      err := totalFault;
      total := if err.None? then |data| else 0;
      calls := calls + [GetTotalKeysCall];
    }
  }

  /** `store.Datastore`: its only state is its backend. */
  class Datastore {
    const backend: Backend

    constructor (backend: Backend)
      ensures this.backend == backend
    {
      this.backend := backend;
    }

    /** Answers exactly what the backend's `GetValue` answers, value and error, and changes no data. */
    method GetRedirect(redirectID: GoString) returns (value: GoString, err: Option<GoString>)
      modifies backend`calls
      ensures (value, err) == backend.Lookup(redirectID)
      ensures backend.data == old(backend.data)
      ensures backend.calls == old(backend.calls) + [GetValueCall(redirectID)]
    {
      value, err := backend.GetValue(redirectID);
    }

    /** The same answer as `GetRedirect` for every key. */
    method GetValue(redirectID: GoString) returns (value: GoString, err: Option<GoString>)
      modifies backend`calls
      ensures (value, err) == backend.Lookup(redirectID)
      ensures backend.data == old(backend.data)
      ensures backend.calls == old(backend.calls) + [GetValueCall(redirectID)]
    {
      value, err := backend.GetValue(redirectID);
    }

    /** Forwards key, value and expiration unchanged to `SetValue` and returns its error. */
    method UpsertValue(key: GoString, value: GoString, expiration: int) returns (err: Option<GoString>)
      modifies backend`data, backend`calls
      ensures err == backend.setFault
      ensures backend.data == if err.None? then old(backend.data)[key := value] else old(backend.data)
      ensures backend.calls == old(backend.calls) + [SetValueCall(key, value, expiration)]
    {
      err := backend.SetValue(key, value, expiration);
    }

    method DeleteValue(key: GoString) returns (err: Option<GoString>)
      modifies backend`data, backend`calls
      ensures err == backend.deleteFault
      ensures backend.data == if err.None? then old(backend.data) - {key} else old(backend.data)
      ensures backend.calls == old(backend.calls) + [DeleteValueCall(key)]
    {
      err := backend.DeleteValue(key);
    }

    method GetRedirects(count: int, cursor: nat) returns (pairs: map<GoString, GoString>, next: nat, err: Option<GoString>)
      modifies backend`calls
      ensures backend.scanReply.Scanned? ==> pairs == backend.scanReply.pairs && next == backend.scanReply.next && err == None
      ensures backend.scanReply.ScanFailed? ==> err == Some(backend.scanReply.err)
      ensures backend.data == old(backend.data)
      ensures backend.calls == old(backend.calls) + [GetKeyValuePairsCall(count, cursor)]
    {
      pairs, next, err := backend.GetKeyValuePairs(count, cursor);
    }

    method GetTotalCount() returns (total: int, err: Option<GoString>)
      modifies backend`calls
      ensures err == backend.totalFault
      ensures err.None? ==> total == |backend.data|
      ensures backend.data == old(backend.data)
      ensures backend.calls == old(backend.calls) + [GetTotalKeysCall]
    {
      total, err := backend.GetTotalKeys();
    }
  }
}
