/** The two collaborators the funnel talks to: the cache store adapter
    (`CacheTool`) and the serializer (`JsonTool`). The store is a pair of
    key spaces held in maps: whole values under a key, and hashes of field
    values under a key. Expiry is recorded per key but never simulated. */
module Tools {
  import opened Lang

  /** The value stored under `key`, or null when there is none. */
  function Lookup(values: map<string, string>, key: string): (r: Option<string>)
    ensures r.Some? <==> key in values
    ensures r.Some? ==> r.value == values[key]
  {
    if key in values then Some(values[key]) else None
  }

  /** The values of those `fields` that `hash` holds, in the order of
      `fields`; a field it does not hold contributes nothing. */
  function Present(hash: map<string, string>, fields: seq<string>): (r: seq<string>)
    ensures |r| <= |fields|
  {
    if |fields| == 0 then []
    else (if fields[0] in hash then [hash[fields[0]]] else []) + Present(hash, fields[1..])
  }

  /** The list comes back as long as the field list exactly when every
      field is held, and then it lists their values position by position. */
  lemma {:induction false} PresentComplete(hash: map<string, string>, fields: seq<string>)
    ensures |Present(hash, fields)| == |fields| <==> forall i :: 0 <= i < |fields| ==> fields[i] in hash
    ensures |Present(hash, fields)| == |fields| ==>
              forall i :: 0 <= i < |fields| ==> Present(hash, fields)[i] == hash[fields[i]]
  {
    if |fields| > 0 {
      PresentComplete(hash, fields[1..]);
      var rest := Present(hash, fields[1..]);
      if fields[0] in hash {
        assert Present(hash, fields) == [hash[fields[0]]] + rest;
      } else {
        assert Present(hash, fields) == rest;
      }
      assert forall i :: 1 <= i < |fields| ==> fields[i] == fields[1..][i - 1];
    }
  }

  /** `hmget`: absent when nothing is stored under `key`, otherwise the
      values of the requested fields that are stored; a list shorter than
      `fields` signals a partial miss. */
  function HmGetResult(hashes: map<string, map<string, string>>, key: string, fields: seq<string>)
    : (r: Option<seq<string>>)
    ensures r.Some? <==> key in hashes
    ensures r.Some? ==> |r.value| <= |fields|
  {
    if key in hashes then Some(Present(hashes[key], fields)) else None
  }

  /** `hmset`: the given fields are merged into the hash under `key`; the
      fields it does not name keep their values. */
  function HmSetResult(hashes: map<string, map<string, string>>, key: string, fields: map<string, string>)
    : (r: map<string, map<string, string>>)
    ensures r.Keys == hashes.Keys + {key}
    ensures forall k :: k in hashes && k != key ==> r[k] == hashes[k]
    ensures forall f :: f in fields ==> f in r[key] && r[key][f] == fields[f]
    ensures key in hashes ==> forall f :: f in hashes[key] && f !in fields ==> f in r[key] && r[key][f] == hashes[key][f]
    ensures r[key].Keys == fields.Keys + (if key in hashes then hashes[key].Keys else {})
  {
    hashes[key := (if key in hashes then hashes[key] else map[]) + fields]
  }

  /** A cache store: `CacheTool`. */
  class Store {
    var values: map<string, string>
    var valueTtl: map<string, int>
    var hashes: map<string, map<string, string>>
    var hashTtl: map<string, int>

    constructor ()
      ensures values == map[] && valueTtl == map[] && hashes == map[] && hashTtl == map[]
    {
      values, valueTtl := map[], map[];
      hashes, hashTtl := map[], map[];
    }

    method Get(key: string) returns (r: Option<string>)
      ensures r == Lookup(values, key)
    {
      r := Lookup(values, key);
    }

    method Save(key: string, value: string, expire: int)
      modifies this
      ensures values == old(values)[key := value] && valueTtl == old(valueTtl)[key := expire]
      ensures hashes == old(hashes) && hashTtl == old(hashTtl)
    {
      values := values[key := value];
      valueTtl := valueTtl[key := expire];
    }

    method HmGet(key: string, fields: seq<string>) returns (r: Option<seq<string>>)
      ensures r == HmGetResult(hashes, key, fields)
    {
      r := HmGetResult(hashes, key, fields);
    }

    method HmSet(key: string, fields: map<string, string>, expire: int)
      modifies this
      ensures hashes == HmSetResult(old(hashes), key, fields) && hashTtl == old(hashTtl)[key := expire]
      ensures values == old(values) && valueTtl == old(valueTtl)
    {
      hashes := HmSetResult(hashes, key, fields);
      hashTtl := hashTtl[key := expire];
    }
  }

  /** `JsonTool.toJsonQuietly` over an encoder that may fail: null becomes
      the empty string, an encoding failure is rethrown as an
      IllegalArgumentException, anything else is the encoder's text. */
  function ToJsonQuietly<R>(encode: R -> Option<string>, obj: Option<R>): (r: Result<string>)
    ensures obj.None? ==> r == Ok("")
    ensures obj.Some? ==> (r.Err? <==> encode(obj.value).None?)
    ensures r.Err? ==> r.error == IllegalArgumentException
    ensures obj.Some? && r.Ok? ==> Some(r.value) == encode(obj.value)
  {
    match obj
    case None => Ok("")
    case Some(v) =>
      match encode(v)
      case None => Err(IllegalArgumentException)
      case Some(json) => Ok(json)
  }
}
