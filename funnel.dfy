/** The cache-aside orchestrator `Funnel<T, R>`: a flat protocol that caches
    a whole encoded result under one key, and a field-scoped protocol that
    caches a result as several fields of one hash and serves it only when
    every field is there. Java's null is `None`; an exception the core
    throws is an `Err` result. */
module Core {
  import opened Lang
  import opened Entity
  import opened Tools
  import opened Metrics

  /* ---------- isEmpty, per concrete type ---------- */

  /** `isEmpty` on a String: null, or nothing left after `trim()`. */
  predicate IsEmptyText(o: Option<string>) {
    o.None? || IsBlank(o.value)
  }

  /** A string is empty in this sense exactly when it is null or holds
      nothing but spaces and control characters. */
  lemma EmptyTextIffAllSpace(o: Option<string>)
    ensures IsEmptyText(o) <==> o.None? || forall i :: 0 <= i < |o.value| ==> o.value[i] <= ' '
  {
    if o.Some? {
      BlankIffAllSpace(o.value);
    }
  }

  /** `isEmpty` on a List: null or no elements. */
  predicate IsEmptyList<X>(o: Option<seq<X>>) {
    o.None? || |o.value| == 0
  }

  /** `isEmpty` on a Map: null or no entries. */
  predicate IsEmptyMap<K, V>(o: Option<map<K, V>>) {
    o.None? || |o.value| == 0
  }

  /** `fmt`: a log argument longer than 1000 UTF-16 code units is replaced
      by a fixed marker; anything else, null included, passes through. */
  function Fmt(info: Option<string>): (r: Option<string>)
    ensures r.None? <==> info.None?
    ensures r.Some? ==> Utf16Len(r.value) <= 1000
    ensures info.Some? && Utf16Len(info.value) <= 1000 ==> r == info
    ensures info.Some? && Utf16Len(info.value) > 1000 ==> r == Some("IgnoreBigStr")
  {
    var res := "IgnoreBigStr";
    if info.Some? && Utf16Len(info.value) > 1000 then Some(res) else info
  }

  /* ---------- the flat protocol, as values ---------- */

  /** `parseCache2Obj`: blank or missing text is a miss; otherwise the
      decoder's answer, where a decode failure is a miss as well. */
  function ParseCacheToObj<R>(value: Option<string>, decode: string -> Option<R>): (r: Option<R>)
    ensures r.Some? <==> value.Some? && !IsBlank(value.value) && decode(value.value).Some?
    ensures r.Some? ==> r == decode(value.value)
  {
    if !IsEmptyText(value) then decode(value.value) else None
  }

  /** A null result is cached as the empty string, which the next probe
      reads as a miss: a null is never served from the cache. */
  lemma NullResultNeverHits<R>(encode: R -> Option<string>, decode: string -> Option<R>)
    ensures ToJsonQuietly(encode, None).Ok?
    ensures ParseCacheToObj(Some(ToJsonQuietly(encode, None).value), decode) == None
  {
    assert IsBlank("");
  }

  /** When the decoder reads back what the encoder wrote and the text is not
      blank, a value the flat protocol saved is served by the next probe. */
  lemma SavedValueHits<R>(encode: R -> Option<string>, decode: string -> Option<R>,
                          values: map<string, string>, key: string, v: R)
    requires ToJsonQuietly(encode, Some(v)).Ok?
    requires !IsBlank(ToJsonQuietly(encode, Some(v)).value)
    requires decode(ToJsonQuietly(encode, Some(v)).value) == Some(v)
    ensures ParseCacheToObj(Lookup(values[key := ToJsonQuietly(encode, Some(v)).value], key), decode) == Some(v)
  {
  }

  /* ---------- the field-scoped protocol, as values ---------- */

  /** The value list `queryFromCache(KeyAware)` puts in a new CacheAware,
      or None where it returns null. A missing hash and an empty list both
      become the empty list, which never matches the non-empty field list. */
  function HashProbe(key: Option<Key>, hashes: map<string, map<string, string>>): Option<seq<string>>
  {
    if key.None? || IsEmptyText(key.value.name) || IsEmptyList(key.value.fields) then None
    else
      var fields := key.value.fields.value;
      var read := HmGetResult(hashes, key.value.name.value, fields);
      var listed := if read.Some? && !IsEmptyList(read) then read.value else [];
      if |fields| != |listed| then None else Some(listed)
  }

  /** All or nothing: the probe yields a snapshot exactly when the key name
      is not blank, the field list is not empty and every field is stored,
      and then the snapshot lists the stored values in field order. */
  lemma HashProbeAllOrNothing(key: Option<Key>, hashes: map<string, map<string, string>>)
    ensures HashProbe(key, hashes).Some? <==>
      && key.Some? && key.value.name.Some? && key.value.fields.Some?
      && !IsBlank(key.value.name.value) && |key.value.fields.value| > 0
      && key.value.name.value in hashes
      && forall i :: 0 <= i < |key.value.fields.value| ==> key.value.fields.value[i] in hashes[key.value.name.value]
    ensures HashProbe(key, hashes).Some? ==>
      var fields := key.value.fields.value;
      var hash := hashes[key.value.name.value];
      |HashProbe(key, hashes).value| == |fields|
      && forall i :: 0 <= i < |fields| ==> HashProbe(key, hashes).value[i] == hash[fields[i]]
  {
    if key.Some? && key.value.name.Some? && key.value.fields.Some? && key.value.name.value in hashes {
      PresentComplete(hashes[key.value.name.value], key.value.fields.value);
    }
  }

  /** No field of `fields` occurs twice. */
  predicate Distinct(fields: seq<string>) {
    forall i, j :: 0 <= i < j < |fields| ==> fields[i] != fields[j]
  }

  /** Position `i` holds the last occurrence of its field. */
  predicate LastOccurrence(fields: seq<string>, i: int)
    requires 0 <= i < |fields|
  {
    forall j :: i < j < |fields| ==> fields[j] != fields[i]
  }

  /** The map `cache` builds: `fields[i] -> values[i]` position by
      position, so that a later position overwrites an earlier one. */
  function FieldMap(fields: seq<string>, values: seq<string>): (m: map<string, string>)
    requires |values| >= |fields|
  {
    if |fields| == 0 then map[]
    else FieldMap(fields[..|fields| - 1], values)[fields[|fields| - 1] := values[|fields| - 1]]
  }

  /** The map holds every field and nothing else. */
  lemma {:induction false} FieldMapKeys(fields: seq<string>, values: seq<string>)
    requires |values| >= |fields|
    ensures forall f :: f in FieldMap(fields, values) <==> f in fields
  {
    if |fields| > 0 {
      var n := |fields| - 1;
      FieldMapKeys(fields[..n], values);
      assert fields == fields[..n] + [fields[n]];
    }
  }

  /** The value of a field is the one at its last position. */
  lemma {:induction false} FieldMapLastWins(fields: seq<string>, values: seq<string>)
    requires |values| >= |fields|
    ensures forall i :: 0 <= i < |fields| && LastOccurrence(fields, i) ==>
              fields[i] in FieldMap(fields, values) && FieldMap(fields, values)[fields[i]] == values[i]
  {
    if |fields| > 0 {
      var n := |fields| - 1;
      var init := fields[..n];
      FieldMapLastWins(init, values);
      forall i | 0 <= i < n && LastOccurrence(fields, i)
        ensures fields[i] in FieldMap(fields, values) && FieldMap(fields, values)[fields[i]] == values[i]
      {
        assert init[i] == fields[i];
        assert LastOccurrence(init, i);
      }
    }
  }

  /** What `cache` does with the snapshot the projection produced: hmset of
      a key and a field map, nothing, or an exception. */
  datatype Write = Write(key: string, fields: map<string, string>)

  /** `cache(cacheAware)` as a value: nothing for a null snapshot, key,
      field list or value list; IndexOutOfBoundsException when there are
      fewer values than fields; otherwise hmset, unless the key name is
      blank or the map is empty. */
  function CacheWrite(s: Option<Snapshot>): Result<Option<Write>>
  {
    if s.None? || s.value.key.None? || s.value.key.value.fields.None? || s.value.values.None? then Ok(None)
    else
      var key := s.value.key.value;
      var fields := key.fields.value;
      var values := s.value.values.value;
      if |values| < |fields| then Err(IndexOutOfBoundsException)
      else
        var m := FieldMap(fields, values);
        if !IsEmptyText(key.name) && !IsEmptyMap(Some(m)) then Ok(Some(Write(key.name.value, m)))
        else Ok(None)
  }

  /** hmset is called only for a non-blank key name and a non-empty field
      list with enough values, and then it writes every field, each with the
      value at its last position. */
  lemma CacheWriteShape(s: Option<Snapshot>)
    ensures CacheWrite(s).Err? <==>
      && s.Some? && s.value.key.Some? && s.value.key.value.fields.Some? && s.value.values.Some?
      && |s.value.values.value| < |s.value.key.value.fields.value|
    ensures s.Some? && s.value.key.Some? && s.value.values.Some?
            && s.value.key.value.name.Some? && s.value.key.value.fields.Some?
            && !IsBlank(s.value.key.value.name.value) && |s.value.key.value.fields.value| > 0
            && |s.value.values.value| >= |s.value.key.value.fields.value| ==>
      CacheWrite(s) == Ok(Some(Write(s.value.key.value.name.value,
                                     FieldMap(s.value.key.value.fields.value, s.value.values.value))))
    ensures CacheWrite(s).Ok? && CacheWrite(s).value.Some? ==>
      var key := s.value.key.value;
      var fields := key.fields.value;
      var values := s.value.values.value;
      var w := CacheWrite(s).value.value;
      && key.name == Some(w.key) && !IsBlank(w.key)
      && |fields| > 0 && |values| >= |fields|
      && (forall f :: f in w.fields <==> f in fields)
      && forall i :: 0 <= i < |fields| && LastOccurrence(fields, i) ==> w.fields[fields[i]] == values[i]
  {
    if s.Some? && s.value.key.Some? && s.value.key.value.fields.Some? && s.value.values.Some?
       && |s.value.values.value| >= |s.value.key.value.fields.value|
    {
      var fields := s.value.key.value.fields.value;
      FieldMapKeys(fields, s.value.values.value);
      FieldMapLastWins(fields, s.value.values.value);
      if |fields| > 0 {
        assert fields[0] in FieldMap(fields, s.value.values.value);
      }
    }
  }

  /** Round trip: once `cache` has written a snapshot, a probe of the same
      key reads every field back, each field with the value at its last
      position. */
  lemma CacheThenProbe(k: Key, values: seq<string>, hashes: map<string, map<string, string>>)
    requires CacheWrite(Some(Snapshot(Some(k), Some(values)))).Ok?
    requires CacheWrite(Some(Snapshot(Some(k), Some(values)))).value.Some?
    ensures var w := CacheWrite(Some(Snapshot(Some(k), Some(values)))).value.value;
      var probe := HashProbe(Some(k), HmSetResult(hashes, w.key, w.fields));
      && probe.Some? && |probe.value| == |k.fields.value|
      && forall i :: 0 <= i < |k.fields.value| && LastOccurrence(k.fields.value, i) ==> probe.value[i] == values[i]
  {
    var s := Some(Snapshot(Some(k), Some(values)));
    CacheWriteShape(s);
    var w := CacheWrite(s).value.value;
    HashProbeAllOrNothing(Some(k), HmSetResult(hashes, w.key, w.fields));
  }

  /** With distinct fields the round trip gives back the value list itself
      (cut to the length of the field list). */
  lemma CacheThenProbeDistinct(k: Key, values: seq<string>, hashes: map<string, map<string, string>>)
    requires CacheWrite(Some(Snapshot(Some(k), Some(values)))).Ok?
    requires CacheWrite(Some(Snapshot(Some(k), Some(values)))).value.Some?
    requires Distinct(k.fields.value)
    ensures var w := CacheWrite(Some(Snapshot(Some(k), Some(values)))).value.value;
      HashProbe(Some(k), HmSetResult(hashes, w.key, w.fields)) == Some(values[..|k.fields.value|])
  {
    CacheThenProbe(k, values, hashes);
    var w := CacheWrite(Some(Snapshot(Some(k), Some(values)))).value.value;
    var probe := HashProbe(Some(k), HmSetResult(hashes, w.key, w.fields)).value;
    var fields := k.fields.value;
    forall i | 0 <= i < |fields|
      ensures probe[i] == values[i]
    {
      assert LastOccurrence(fields, i);
    }
    assert probe == values[..|fields|];
  }

  /** A partial hash is a miss: if one requested field is not stored, the
      probe yields no snapshot whatever the other fields hold. */
  lemma PartialHashIsMiss(k: Key, hashes: map<string, map<string, string>>, i: int)
    requires k.name.Some? && k.fields.Some? && 0 <= i < |k.fields.value|
    requires k.name.value in hashes ==> k.fields.value[i] !in hashes[k.name.value]
    ensures HashProbe(Some(k), hashes) == None
  {
    HashProbeAllOrNothing(Some(k), hashes);
  }

  /** The predicate is set and accepts `x`. */
  predicate Accepts<R>(predicateFunc: Option<Option<R> -> bool>, x: Option<R>) {
    predicateFunc.Some? && predicateFunc.value(x)
  }

  /** The last line of private `get(T)`: the result if accepted, else null. */
  function Gate<R>(predicateFunc: Option<Option<R> -> bool>, x: Option<R>): Option<R> {
    if Accepts(predicateFunc, x) then x else None
  }

  /** Without a predicate the field-scoped protocol never returns a value;
      with one, a value it returns is one the predicate accepts. */
  lemma GateOnlyPassesAccepted<R>(predicateFunc: Option<Option<R> -> bool>, x: Option<R>)
    ensures predicateFunc.None? ==> Gate(predicateFunc, x) == None
    ensures Gate(predicateFunc, x).Some? ==> Accepts(predicateFunc, x) && Gate(predicateFunc, x) == x
  {
  }

  /** The value private `get(T)` tests first: what the recovery function
      makes of a complete snapshot, or else the result left over in `res`. */
  function Candidate<R>(prior: Option<R>, key: Option<Key>, probe: Option<seq<string>>,
                        recover: Option<Snapshot -> Option<R>>): Option<R>
  {
    if probe.Some? && recover.Some? then recover.value(Snapshot(key, probe)) else prior
  }

  /** `Funnel<T, R>`. The counter is the process-wide table shared by every
      funnel; the store is what `getCacheTool()` returns; `encode` is the
      serializer's value-to-text half (null on failure). */
  class Funnel<T, R> {
    var res: Option<R>
    var keyAwareFunc: Option<T -> KeyAware?>
    var cacheRecoverFunc: Option<Snapshot -> Option<R>>
    var predicateFunc: Option<Option<R> -> bool>
    var querySyncFunc: Option<Option<T> -> Option<R>>
    var cacheAwareFunc: Option<(T, Option<R>) -> CacheAware?>
    var expire: int
    var serviceName: string
    const store: Store
    const counter: Counter
    const encode: R -> Option<string>

    ghost predicate Valid()
      reads counter, counter.Arrays
    {
      counter.Valid()
    }

    constructor (store: Store, counter: Counter, encode: R -> Option<string>)
      requires counter.Valid()
      ensures Valid()
      ensures this.store == store && this.counter == counter && this.encode == encode
      ensures res == None && keyAwareFunc == None && cacheRecoverFunc == None
      ensures predicateFunc == None && querySyncFunc == None && cacheAwareFunc == None
      ensures expire == 1800 && serviceName == ""
    {
      this.store := store;
      this.counter := counter;
      this.encode := encode;
      res := None;
      keyAwareFunc, cacheRecoverFunc := None, None;
      predicateFunc, querySyncFunc, cacheAwareFunc := None, None, None;
      expire := 1800;
      serviceName := "";
    }

    /* ----- builder setters ----- */

    method Bind(querySyncFunc: Option<Option<T> -> Option<R>>, predicateFunc: Option<Option<R> -> bool>)
      returns (self: Funnel<T, R>)
      modifies this
      ensures self == this
      ensures this.querySyncFunc == querySyncFunc && this.predicateFunc == predicateFunc
      ensures res == old(res) && keyAwareFunc == old(keyAwareFunc) && cacheRecoverFunc == old(cacheRecoverFunc)
      ensures cacheAwareFunc == old(cacheAwareFunc) && expire == old(expire) && serviceName == old(serviceName)
    {
      this.querySyncFunc := querySyncFunc;
      this.predicateFunc := predicateFunc;
      return this;
    }

    method UseCache(keyAwareFunc: Option<T -> KeyAware?>) returns (self: Funnel<T, R>)
      modifies this
      ensures self == this && this.keyAwareFunc == keyAwareFunc
      ensures res == old(res) && cacheRecoverFunc == old(cacheRecoverFunc) && predicateFunc == old(predicateFunc)
      ensures querySyncFunc == old(querySyncFunc) && cacheAwareFunc == old(cacheAwareFunc)
      ensures expire == old(expire) && serviceName == old(serviceName)
    {
      this.keyAwareFunc := keyAwareFunc;
      return this;
    }

    method CacheResult(cacheAwareFunc: Option<(T, Option<R>) -> CacheAware?>) returns (self: Funnel<T, R>)
      modifies this
      ensures self == this && this.cacheAwareFunc == cacheAwareFunc
      ensures res == old(res) && keyAwareFunc == old(keyAwareFunc) && cacheRecoverFunc == old(cacheRecoverFunc)
      ensures predicateFunc == old(predicateFunc) && querySyncFunc == old(querySyncFunc)
      ensures expire == old(expire) && serviceName == old(serviceName)
    {
      this.cacheAwareFunc := cacheAwareFunc;
      return this;
    }

    method ConfigFunnel(serviceName: string, expire: int) returns (self: Funnel<T, R>)
      modifies this
      ensures self == this && this.serviceName == serviceName && this.expire == expire
      ensures res == old(res) && keyAwareFunc == old(keyAwareFunc) && cacheRecoverFunc == old(cacheRecoverFunc)
      ensures predicateFunc == old(predicateFunc) && querySyncFunc == old(querySyncFunc)
      ensures cacheAwareFunc == old(cacheAwareFunc)
    {
      this.serviceName := serviceName;
      this.expire := expire;
      return this;
    }

    /* ----- the flat protocol ----- */

    /** `get(key, req, type)`; the target type is the decoder it selects. */
    method Get(key: string, req: Option<T>, decode: string -> Option<R>) returns (r: Result<Option<R>>)
      requires Valid()
      modifies store, counter, counter.Arrays
      ensures Valid() && fresh(counter.Arrays - old(counter.Arrays))
      ensures old(Shaped(counter.Contents))
      ensures var cached := ParseCacheToObj(Lookup(old(store.values), key), decode);
        var probed := LogStep(old(counter.Contents), serviceName, QRY_CACHE);
        if cached.Some? then
          r == Ok(cached) && StoreKept() && counter.Contents == LogStep(probed, serviceName, CACHE_EXISTS)
        else
          QueriedDb(key, req, r, probed)
    {
      var value := QueryFromCache(key);
      var cached := ParseCacheToObj(value, decode);
      if cached.Some? {
        counter.LogCache(serviceName, CACHE_EXISTS);
        return Ok(cached);
      }
      r := QueryFromDb(key, req);
    }

    /** The store is exactly as it was. */
    twostate predicate StoreKept()
      reads store
    {
      store.values == old(store.values) && store.valueTtl == old(store.valueTtl)
      && store.hashes == old(store.hashes) && store.hashTtl == old(store.hashTtl)
    }

    /** `queryFromDB(key, req)` ran, with the table at `before` when it
        started: the source query is counted first; without a source the
        result is null and nothing is written; otherwise the encoded result
        is saved under `key` with the configured expiry and returned, unless
        encoding throws. */
    twostate predicate QueriedDb(key: string, req: Option<T>, new r: Result<Option<R>>, before: map<string, seq<int>>)
      requires Shaped(before)
      reads this, store, counter
    {
      && counter.Contents == LogStep(before, serviceName, QRY_DB)
      && if querySyncFunc.None? then
           r == Ok(None) && StoreKept()
         else
           var found := querySyncFunc.value(req);
           match ToJsonQuietly(encode, found)
           case Err(e) => r == Err(e) && StoreKept()
           case Ok(json) =>
             && r == Ok(found)
             && store.values == old(store.values)[key := json] && store.valueTtl == old(store.valueTtl)[key := expire]
             && store.hashes == old(store.hashes) && store.hashTtl == old(store.hashTtl)
    }

    /** `queryFromCache(key)`: counts a probe and reads the whole value. */
    method QueryFromCache(key: string) returns (value: Option<string>)
      requires Valid()
      modifies counter, counter.Arrays
      ensures Valid() && fresh(counter.Arrays - old(counter.Arrays))
      ensures old(Shaped(counter.Contents)) && counter.Contents == LogStep(old(counter.Contents), serviceName, QRY_CACHE)
      ensures value == Lookup(store.values, key)
    {
      counter.LogCache(serviceName, QRY_CACHE);
      value := store.Get(key);
    }

    /** `queryFromDB(key, req)`. */
    method QueryFromDb(key: string, req: Option<T>) returns (r: Result<Option<R>>)
      requires Valid()
      modifies store, counter, counter.Arrays
      ensures Valid() && fresh(counter.Arrays - old(counter.Arrays))
      ensures old(Shaped(counter.Contents)) && QueriedDb(key, req, r, old(counter.Contents))
    {
      counter.LogCache(serviceName, QRY_DB);
      if querySyncFunc.None? {
        return Ok(None);
      }
      var found := querySyncFunc.value(req);
      var jsonValue := ToJsonQuietly(encode, found);
      if jsonValue.Err? {
        return Err(jsonValue.error);
      }
      store.Save(key, jsonValue.value, expire);
      return Ok(found);
    }

    /* ----- the field-scoped protocol ----- */

    /** `getWithCache(req, cacheRecoverFunc)`: installs the recovery
        function for this and later calls, then runs private `get(req)`. */
    method GetWithCache(req: Option<T>, cacheRecoverFunc: Option<Snapshot -> Option<R>>)
      returns (r: Result<Option<R>>)
      requires Valid()
      modifies this, store, counter, counter.Arrays
      ensures Valid() && fresh(counter.Arrays - old(counter.Arrays))
      ensures this.cacheRecoverFunc == cacheRecoverFunc && ConfigKept(true)
      ensures old(Shaped(counter.Contents)) && Served(req, r)
    {
      this.cacheRecoverFunc := cacheRecoverFunc;
      r := GetByRequest(req);
    }

    /** Every injected function and setting is as it was; the recovery
        function too unless `recoverReplaced`. */
    twostate predicate ConfigKept(recoverReplaced: bool)
      reads this
    {
      && keyAwareFunc == old(keyAwareFunc) && predicateFunc == old(predicateFunc)
      && querySyncFunc == old(querySyncFunc) && cacheAwareFunc == old(cacheAwareFunc)
      && expire == old(expire) && serviceName == old(serviceName)
      && (recoverReplaced || cacheRecoverFunc == old(cacheRecoverFunc))
    }

    /** Private `get(req)` ran to `r`, with the injected functions as they
        are now. A null request does nothing. Otherwise, when a key function
        is set, a probe is counted and the hash is read for the derived key;
        the candidate is what recovery makes of a complete snapshot, or else
        the result left in `res` by an earlier call. An accepted candidate is
        a hit. Otherwise the source, when set, is counted and queried; the
        predicate is then applied to the fresh result (throwing when it is
        null), and an accepted fresh result is projected and written to the
        hash. The value returned is `res` when the predicate accepts it and
        null otherwise. */
    twostate predicate Served(req: Option<T>, new r: Result<Option<R>>)
      requires old(Shaped(counter.Contents))
      reads this, store, counter, Projection(req), Holders(req)
    {
      if req.None? then
        r == Ok(None) && res == old(res) && StoreKept() && counter.Contents == old(counter.Contents)
      else
        var q := req.value;
        var probing := keyAwareFunc.Some?;
        var key := KeyView(KeyAwareOf(q));
        var probe := if probing then HashProbe(key, old(store.hashes)) else None;
        var candidate := Candidate(old(res), key, probe, cacheRecoverFunc);
        var probed := if probing then LogStep(old(counter.Contents), serviceName, QRY_CACHE) else old(counter.Contents);
        Settled(req, r, candidate, probed)
    }

    /** The rest of private `get(req)`, from the predicate test of the
        `candidate` on, with the table at `probed`: an accepted candidate
        is a hit; otherwise the source, when set, is counted and queried;
        the predicate is then applied to the fresh result (throwing when it
        is null), and an accepted fresh result is projected and written to
        the hash. */
    twostate predicate Settled(req: Option<T>, new r: Result<Option<R>>, candidate: Option<R>,
                               probed: map<string, seq<int>>)
      requires req.Some? && Shaped(probed)
      reads this, store, counter, Projection(req), Holders(req)
    {
      var q := req.value;
      if Accepts(predicateFunc, candidate) then
        && r == Ok(candidate) && res == candidate && StoreKept()
        && counter.Contents == LogStep(probed, serviceName, CACHE_EXISTS)
      else if querySyncFunc.None? then
        r == Ok(None) && res == candidate && StoreKept() && counter.Contents == probed
      else
        var found := querySyncFunc.value(req);
        && res == found
        && counter.Contents == LogStep(probed, serviceName, QRY_DB)
        && if predicateFunc.None? then
             r == Err(NullPointerException) && StoreKept()
           else if !predicateFunc.value(found) || cacheAwareFunc.None? then
             r == Ok(Gate(predicateFunc, found)) && StoreKept()
           else
             var w := CacheWrite(SnapshotView(ProjectionOf(q, found)));
             Written(w) && r == (if w.Err? then Err(w.error) else Ok(found))
    }

    /** The descriptor the key function derives from `q`, or null. */
    function KeyAwareOf(q: T): (ka: KeyAware?)
      reads this
      ensures keyAwareFunc.None? ==> ka == null
    {
      if keyAwareFunc.Some? then keyAwareFunc.value(q) else null
    }

    /** The snapshot the projection makes of `q` and `found`, or null. */
    function ProjectionOf(q: T, found: Option<R>): (ca: CacheAware?)
      reads this
      ensures cacheAwareFunc.None? ==> ca == null
    {
      if cacheAwareFunc.Some? then cacheAwareFunc.value(q, found) else null
    }

    /** The snapshot object a call of private `get(req)` would hand to
        `cache`, as a set of at most one object. */
    function Projection(req: Option<T>): set<CacheAware>
      reads this
    {
      if req.None? || querySyncFunc.None? then {}
      else
        var ca := ProjectionOf(req.value, querySyncFunc.value(req));
        if ca == null then {} else {ca}
    }

    /** The holder objects a call of private `get(req)` reads. */
    function Holders(req: Option<T>): set<object>
      reads this, Projection(req)
    {
      var ka := if req.None? then null else KeyAwareOf(req.value);
      var ca := if req.None? || querySyncFunc.None? then null else ProjectionOf(req.value, querySyncFunc.value(req));
      var inner := if ca == null then null else ca.keyAware;
      (if ka == null then {} else {ka}) + (if inner == null then {} else {inner})
    }

    /** The store after `cache` did `w`: the hash write merged in with the
        configured expiry, or nothing at all. */
    twostate predicate Written(w: Result<Option<Write>>)
      reads this, store
    {
      if w.Ok? && w.value.Some? then
        && store.hashes == HmSetResult(old(store.hashes), w.value.value.key, w.value.value.fields)
        && store.hashTtl == old(store.hashTtl)[w.value.value.key := expire]
        && store.values == old(store.values) && store.valueTtl == old(store.valueTtl)
      else
        StoreKept()
    }

    /** Private `get(req)`. */
    method GetByRequest(req: Option<T>) returns (r: Result<Option<R>>)
      requires Valid()
      modifies this, store, counter, counter.Arrays
      ensures Valid() && fresh(counter.Arrays - old(counter.Arrays))
      ensures ConfigKept(false)
      ensures old(Shaped(counter.Contents)) && Served(req, r)
      ensures req.Some? && r.Ok? ==> r.value == Gate(predicateFunc, res)
      ensures store.values == old(store.values) && store.valueTtl == old(store.valueTtl)
      ensures store.hashes != old(store.hashes) ==> Accepts(predicateFunc, res) && cacheAwareFunc.Some?
    {
      counter.ValidShaped();
      if req.None? {
        return Ok(None);
      }
      ghost var key := KeyView(KeyAwareOf(req.value));
      Recover(req.value);
      assert KeyView(KeyAwareOf(req.value)) == key;
      r := Settle(req);
      assert KeyView(KeyAwareOf(req.value)) == key;
    }

    /** Lines 178-190 of private `get(req)`. */
    method Settle(req: Option<T>) returns (r: Result<Option<R>>)
      requires Valid() && req.Some?
      modifies this, store, counter, counter.Arrays
      ensures Valid() && fresh(counter.Arrays - old(counter.Arrays))
      ensures ConfigKept(false)
      ensures old(Shaped(counter.Contents)) && Settled(req, r, old(res), old(counter.Contents))
      ensures r.Ok? ==> r.value == Gate(predicateFunc, res)
    {
      counter.ValidShaped();
      if predicateFunc.Some? && predicateFunc.value(res) {
        counter.LogCache(serviceName, CACHE_EXISTS);
        return Ok(res);
      }
      if querySyncFunc.Some? {
        var outcome := Refresh(req);
        if outcome.Err? {
          return Err(outcome.error);
        }
      }
      return Ok(if predicateFunc.Some? && predicateFunc.value(res) then res else None);
    }

    /** Lines up to the predicate test of private `get(q)`: with a key
        function set, counts a probe and reads the hash; a complete snapshot
        is handed to the recovery function, when set, whose answer replaces
        `res`. */
    method Recover(q: T)
      requires Valid()
      modifies this, counter, counter.Arrays
      ensures Valid() && fresh(counter.Arrays - old(counter.Arrays))
      ensures ConfigKept(false)
      ensures old(Shaped(counter.Contents))
      ensures var key := KeyView(KeyAwareOf(q));
        var probe := if keyAwareFunc.Some? then HashProbe(key, store.hashes) else None;
        && res == Candidate(old(res), key, probe, cacheRecoverFunc)
        && counter.Contents == if keyAwareFunc.Some? then LogStep(old(counter.Contents), serviceName, QRY_CACHE)
                               else old(counter.Contents)
    {
      var cacheAware := ProbeHash(q);
      ghost var key := KeyView(KeyAwareOf(q));
      ghost var probe := if keyAwareFunc.Some? then HashProbe(key, store.hashes) else None;
      ghost var tallies := counter.Contents;
      ghost var candidate := Candidate(old(res), key, probe, cacheRecoverFunc);
      if cacheAware != null && cacheRecoverFunc.Some? {
        Keep(cacheRecoverFunc.value(cacheAware.View()));
      }
      assert res == candidate;
      assert counter.Contents == tallies;
      assert key == KeyView(KeyAwareOf(q));
    }

    /** Lines 169-174 of private `get(q)`: with a key function set, counts a
        probe and reads the hash for the descriptor it derives. The snapshot
        comes back exactly when the read is complete. */
    method ProbeHash(q: T) returns (cacheAware: CacheAware?)
      requires Valid()
      modifies counter, counter.Arrays
      ensures Valid() && fresh(counter.Arrays - old(counter.Arrays))
      ensures old(Shaped(counter.Contents))
      ensures counter.Contents == if keyAwareFunc.Some? then LogStep(old(counter.Contents), serviceName, QRY_CACHE)
                                  else old(counter.Contents)
      ensures var key := KeyView(KeyAwareOf(q));
        var probe := if keyAwareFunc.Some? then HashProbe(key, store.hashes) else None;
        && (cacheAware == null <==> probe.None?)
        && (cacheAware != null ==> cacheAware.View() == Snapshot(key, probe))
    {
      counter.ValidShaped();
      cacheAware := null;
      ghost var key := KeyView(KeyAwareOf(q));
      if keyAwareFunc.Some? {
        counter.LogCache(serviceName, QRY_CACHE);
        var keyAware := keyAwareFunc.value(q);
        cacheAware := QueryHashFromCache(keyAware);
      }
      assert KeyView(KeyAwareOf(q)) == key;
    }

    /** `res = x`. */
    method Keep(x: Option<R>)
      modifies this
      ensures res == x && ConfigKept(false)
    {
      res := x;
    }

    /** The source branch of private `get(req)`: counts a source query and
        stores its answer in `res`; then tests it with the predicate, which
        throws when null, and caches an accepted answer through the
        projection, when set. */
    method Refresh(req: Option<T>) returns (outcome: Result<()>)
      requires Valid() && req.Some? && querySyncFunc.Some?
      modifies this, store, counter, counter.Arrays
      ensures Valid() && fresh(counter.Arrays - old(counter.Arrays))
      ensures ConfigKept(false)
      ensures old(Shaped(counter.Contents)) && counter.Contents == LogStep(old(counter.Contents), serviceName, QRY_DB)
      ensures res == querySyncFunc.value(req)
      ensures if predicateFunc.None? then
                outcome == Err(NullPointerException) && StoreKept()
              else if !predicateFunc.value(res) || cacheAwareFunc.None? then
                outcome == Ok(()) && StoreKept()
              else
                var w := CacheWrite(SnapshotView(ProjectionOf(req.value, res)));
                Written(w) && (outcome.Err? <==> w.Err?) && (outcome.Err? ==> outcome.error == w.error)
    {
      counter.LogCache(serviceName, QRY_DB);
      Keep(querySyncFunc.value(req));
      if predicateFunc.None? {
        return Err(NullPointerException);
      }
      outcome := Project(req.value);
    }

    /** Line 185 onwards with a predicate set: an accepted `res` is
        projected and cached, when a projection is set. */
    method Project(q: T) returns (outcome: Result<()>)
      requires predicateFunc.Some?
      modifies store
      ensures if !predicateFunc.value(res) || cacheAwareFunc.None? then
                outcome == Ok(()) && StoreKept()
              else
                var w := CacheWrite(SnapshotView(ProjectionOf(q, res)));
                Written(w) && (outcome.Err? <==> w.Err?) && (outcome.Err? ==> outcome.error == w.error)
    {
      if predicateFunc.value(res) && cacheAwareFunc.Some? {
        var cacheAware := cacheAwareFunc.value(q, res);
        ghost var snap := SnapshotView(cacheAware);
        outcome := Cache(cacheAware);
        assert SnapshotView(cacheAware) == snap;
      } else {
        outcome := Ok(());
      }
    }

    /** `queryFromCache(keyAware)`: null for a null descriptor, a blank key
        name or an empty field list, without reading the store; otherwise a
        new snapshot of the descriptor and the values read, when the read is
        complete, and null when it is not. */
    method QueryHashFromCache(keyAware: KeyAware?) returns (cacheAware: CacheAware?)
      ensures cacheAware == null <==> HashProbe(KeyView(keyAware), store.hashes).None?
      ensures cacheAware != null ==>
        && fresh(cacheAware) && cacheAware.keyAware == keyAware
        && cacheAware.values == HashProbe(KeyView(keyAware), store.hashes)
    {
      if keyAware == null || IsEmptyText(keyAware.keyName) || IsEmptyList(keyAware.fields) {
        return null;
      }
      var read := store.HmGet(keyAware.keyName.value, keyAware.fields.value);
      var mvalues := if read.Some? && !IsEmptyList(read) then read.value else [];
      if |keyAware.fields.value| != |mvalues| {
        return null;
      }
      cacheAware := new CacheAware(keyAware, Some(mvalues));
    }

    /** `cache(cacheAware)`: builds the field map position by position and
        writes it with hmset. */
    method Cache(cacheAware: CacheAware?) returns (r: Result<()>)
      modifies store
      ensures var w := old(CacheWrite(SnapshotView(cacheAware)));
        Written(w) && (r.Err? <==> w.Err?) && (r.Err? ==> r.error == w.error)
    {
      if cacheAware != null && cacheAware.keyAware != null && cacheAware.keyAware.fields.Some?
         && cacheAware.values.Some?
      {
        var keyAware := cacheAware.keyAware;
        var mvalues: map<string, string> := map[];
        var fields := keyAware.fields.value;
        var values := cacheAware.values.value;
        for i := 0 to |fields|
          invariant i <= |values|
          invariant mvalues == FieldMap(fields[..i], values)
        {
          if i >= |values| {
            return Err(IndexOutOfBoundsException);
          }
          assert fields[..i + 1][..i] == fields[..i];
          mvalues := mvalues[fields[i] := values[i]];
        }
        assert fields[..|fields|] == fields;
        if !IsEmptyText(keyAware.keyName) && !IsEmptyMap(Some(mvalues)) {
          store.HmSet(keyAware.keyName.value, mvalues, expire);
        }
      }
      return Ok(());
    }
  }
}
