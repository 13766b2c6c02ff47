/**
 * The Store the proxy caches into: Get(key) and Set(key, data) over a
 * key-value map, with a log of every call so that what the proxy asked of
 * the store can be stated.
 */
module Store {
  import opened Http

  datatype StoreCall = GetCall(key: string) | SetCall(key: string, data: seq<byte>)

  /** The map a store holds after `calls`, starting from `data`; a Get changes nothing. */
  function Replay(data: map<string, seq<byte>>, calls: seq<StoreCall>): map<string, seq<byte>>
    decreases |calls|
  {
    if calls == [] then data
    else
      var next := match calls[0]
        case GetCall(_) => data
        case SetCall(k, v) => data[k := v];
      Replay(next, calls[1..])
  }

  /** The Set calls of a log, in order. */
  function Writes(calls: seq<StoreCall>): (ws: seq<StoreCall>)
    ensures |ws| <= |calls|
    ensures forall i :: 0 <= i < |ws| ==> ws[i].SetCall? && ws[i] in calls
  {
    if calls == [] then []
    else (if calls[0].SetCall? then [calls[0]] else []) + Writes(calls[1..])
  }

  /** A lookup alone leaves the store as it was and writes nothing. */
  lemma ReplayLookup(data: map<string, seq<byte>>, k: string)
    ensures Replay(data, [GetCall(k)]) == data && Writes([GetCall(k)]) == []
  {
    assert [GetCall(k)][1..] == [];
  }

  /** A lookup in front of any log changes nothing the log does. */
  lemma ReplayAfterLookup(data: map<string, seq<byte>>, k: string, calls: seq<StoreCall>)
    ensures Replay(data, [GetCall(k)] + calls) == Replay(data, calls)
  {
    assert ([GetCall(k)] + calls)[1..] == calls;
  }

  /** Logging a lookup and then `calls` is logging the lookup-first log. */
  lemma LogAfterLookup(log: seq<StoreCall>, k: string, calls: seq<StoreCall>)
    ensures log + [GetCall(k)] + calls == log + ([GetCall(k)] + calls)
  {
  }

  /** A single Set changes the one entry it names. */
  lemma ReplayOneSet(data: map<string, seq<byte>>, k: string, v: seq<byte>)
    ensures Replay(data, [SetCall(k, v)]) == data[k := v]
  {
    assert [SetCall(k, v)][1..] == [];
  }

  /** A lookup followed by one Set leaves the store with that one entry changed. */
  lemma ReplayLookupThenSet(data: map<string, seq<byte>>, k: string, k': string, v: seq<byte>)
    ensures Replay(data, [GetCall(k), SetCall(k', v)]) == data[k' := v]
    ensures Writes([GetCall(k), SetCall(k', v)]) == [SetCall(k', v)]
  {
    var calls := [GetCall(k), SetCall(k', v)];
    assert calls[1..] == [SetCall(k', v)];
    assert calls[1..][1..] == [];
    assert Replay(data, calls) == Replay(data, calls[1..]);
    assert Replay(data, calls[1..]) == Replay(data[k' := v], []);
  }

  /**
   * An in-memory Store: a Get that finds the key answers with a nil error,
   * one that does not answers with an error (None here); Set always succeeds.
   */
  class MapStore {
    var data: map<string, seq<byte>>
    var log: seq<StoreCall>

    constructor (initial: map<string, seq<byte>>)
      ensures data == initial && log == []
    {
      data, log := initial, [];
    }

    method Get(key: string) returns (found: Option<seq<byte>>)
      modifies this
      ensures found == (if key in old(data) then Some(old(data)[key]) else None)
      ensures data == old(data) && log == old(log) + [GetCall(key)]
    {
      found := if key in data then Some(data[key]) else None;
      log := log + [GetCall(key)];
    }

    method Set(key: string, value: seq<byte>)
      modifies this
      ensures data == old(data)[key := value] && log == old(log) + [SetCall(key, value)]
    {
      data := data[key := value];
      log := log + [SetCall(key, value)];
    }
  }
}
