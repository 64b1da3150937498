# Funnel: a verified model of a cache-aside helper

`Funnel<T, R>` puts a cache in front of an authoritative query function. It
has two protocols:

- **Flat protocol** (`get(key, req, type)`). It reads a whole encoded value
  under a key. A blank value or one that does not decode is a miss. On a miss
  it calls the query function, saves the encoded answer with the configured
  expiry and returns the answer.
- **Field-scoped protocol** (`getWithCache`, private `get(T)`).
  - It derives a `KeyAware` (a hash key name and a list of field names) from
    the request and reads those fields with `hmget`.
  - It builds a `CacheAware` snapshot only when every field came back. A
    recovery function turns the snapshot into a result.
  - A predicate decides whether a result counts as a hit. On a miss it
    queries the source, and an accepted fresh result is projected back into
    a field map and written with `hmset`.
  - The last result is kept in the instance field `res` and is tested again
    by the next call when no snapshot was recovered.

Both protocols count their steps in a process-wide table from service name to
a three-slot tally (cache probes, cache hits, source queries). A tally is
zeroed as soon as its source-query slot passes 1000.

The modules follow the Java packages:

| module | file | contents |
|---|---|---|
| `Lang` | lang.dfy | null as `Option`, a thrown exception as `Result`/`Fault`, 32-bit `int` increment, `String.trim()` and `String.length()` |
| `Entity` | entity.dfy | the `KeyAware` and `CacheAware` classes |
| `Tools` | tools.dfy | the cache store (`CacheTool`) as a class over maps, and `JsonTool.toJsonQuietly` |
| `Metrics` | metrics.dfy | the shared counter table, `logCache` and `resetCounter` |
| `Core` | funnel.dfy | `isEmpty`, `fmt`, value-level definitions of both protocols and their lemmas, and the `Funnel` class |

Modelling choices:

- Java's null is `None`.
- An exception the core throws is an `Err` result, not a precondition:
  - a null predicate at Funnel.java:185;
  - a value list shorter than the field list at Funnel.java:211;
  - an encoding failure inside `toJsonQuietly`.
- The injected Java functions are Dafny function values in `Option` fields.
- The serializer's encoder is a function to `Option<string>`, where `None`
  means it throws. The decoder is a parameter of `Get`; it stands for the
  target type the caller passes.
- The counter is one `Counter` object shared by all funnels. Each tally is an
  `int[3]` array of its own.
- The store keeps its expiries in maps but never expires anything.
- The source throws an exception from `toJsonQuietly` when encoding fails.
  The model follows the code and returns an `Err` there; it does not treat
  the failure as a miss.
- The threshold test runs on every `logCache` call, whatever the step, as the
  code does.

## Model

| member | source | states |
|---|---|---|
| Lang.Inc | src/main/java/core/Funnel.java:54 | `operIndex[step]++` on a Java `int`: an `int` stays an `int`, and INT_MAX wraps round to INT_MIN |
| Lang.IncWraps | src/main/java/core/Funnel.java:54 | the increment is addition modulo 2^32 in two's complement |
| Lang.BlankIffAllSpace | src/main/java/core/Funnel.java:224-226 | `s.trim().length() == 0` holds exactly when every character of `s` is at most U+0020 |
| Core.EmptyTextIffAllSpace | src/main/java/core/Funnel.java:221-226 | `isEmpty` on a String is true exactly for null or a string of spaces and control characters |
| Lang.Utf16LenPlanes | src/main/java/core/Funnel.java:247 | `length()` counts UTF-16 code units: one per character inside the Basic Multilingual Plane and two per character outside it |
| Core.Fmt | src/main/java/core/Funnel.java:245-248 | the marker "IgnoreBigStr" replaces exactly the non-null arguments longer than 1000 UTF-16 code units; anything else, null included, passes through unchanged; the result is never longer than 1000 code units |
| Entity.KeyAware.constructor | src/main/java/entity/KeyAware.java:9-12 | the key name and field list are stored as given |
| Entity.KeyAware.GetKeyName | src/main/java/entity/KeyAware.java:14-16 | returns the stored key name |
| Entity.KeyAware.SetKeyName | src/main/java/entity/KeyAware.java:18-20 | the getter then returns the new key name, and the field list is unchanged |
| Entity.KeyAware.GetFields | src/main/java/entity/KeyAware.java:22-24 | returns the stored field list |
| Entity.KeyAware.SetFields | src/main/java/entity/KeyAware.java:26-28 | the getter then returns the new field list, and the key name is unchanged |
| Entity.CacheAware.constructor | src/main/java/entity/CacheAware.java:9-12 | the descriptor reference, not a copy, and the value list are stored as given |
| Entity.CacheAware.GetKeyAware | src/main/java/entity/CacheAware.java:14-16 | returns the stored descriptor reference |
| Entity.CacheAware.SetKeyAware | src/main/java/entity/CacheAware.java:18-20 | the getter then returns the new descriptor, and the value list is unchanged |
| Entity.CacheAware.GetValues | src/main/java/entity/CacheAware.java:22-24 | returns the stored value list |
| Entity.CacheAware.SetValues | src/main/java/entity/CacheAware.java:26-28 | the getter then returns the new value list, and the descriptor is unchanged |
| Tools.Store.Get | src/main/java/tools/CacheTool.java:11 | `get` returns the value stored under the key, or nothing when there is none |
| Tools.Store.Save | src/main/java/tools/CacheTool.java:9 | `save` sets the value and its expiry under the key and changes nothing else |
| Tools.Store.HmGet | src/main/java/tools/CacheTool.java:15 | `hmget` returns nothing for a missing hash, otherwise the stored values of the requested fields in field order |
| Tools.Store.HmSet | src/main/java/tools/CacheTool.java:13 | `hmset` merges the given fields into the hash and sets its expiry; the whole-value space is unchanged |
| Tools.HmSetResult | src/main/java/tools/CacheTool.java:13 | after the merge, every given field holds its new value, every other field keeps its value, and other hashes are untouched |
| Tools.PresentComplete | src/main/java/tools/CacheTool.java:15 | the `hmget` list is as long as the field list exactly when every field is stored, and it then lists their values position by position |
| Tools.ToJsonQuietly | src/main/java/tools/JsonTool.java:27-41 | null becomes ""; an encoding failure is an IllegalArgumentException; otherwise the result is the encoder's text |
| Metrics.Counter.constructor | src/main/java/core/Funnel.java:40 | the table starts empty |
| Metrics.Counter.LogCache | src/main/java/core/Funnel.java:45-61 | the table afterwards is `LogStep` of the table before; the class invariant keeps one distinct three-slot array per service |
| Metrics.Counter.TallyFor | src/main/java/core/Funnel.java:46-52 | an unseen service gets a new zeroed tally registered under its name; a known service gets back its own array, and no other array is added or replaced |
| Metrics.Counter.Count | src/main/java/core/Funnel.java:53-55 | slot `step` of the caller's tally is incremented and nothing else changes |
| Metrics.Counter.CountAndCheck | src/main/java/core/Funnel.java:53-60 | counting followed by the threshold test yields `LogStep` of the table before |
| Metrics.Counter.ResetCounter | src/main/java/core/Funnel.java:64-69 | the loop zeroes every slot of the caller's tally and leaves other tallies alone |
| Metrics.LogStepFrame | src/main/java/core/Funnel.java:45-61 | only the caller's tally changes, and it exists afterwards |
| Metrics.LogStepCounts | src/main/java/core/Funnel.java:47-60 | a new service starts from zero; the call that takes the source-query slot from 1000 to 1001 zeroes the tally; on every other call slot `step` goes up by one (with wrap-around) and the other slots keep their values, and a step outside 0..2 counts nothing |
| Metrics.LogStepBounded | src/main/java/core/Funnel.java:56-60 | after any call, the caller's source-query slot is at most 1000 |
| Metrics.LogStepResetsAtThreshold | src/main/java/core/Funnel.java:56-69 | from a reachable table, the tally is zeroed when this call takes the source-query slot from 1000 to 1001; on any other call the source-query slot goes up by one for a source query and stays put for any other step |
| Metrics.LogStepSound | src/main/java/core/Funnel.java:45-69 | every call keeps the table reachable: slots are Java ints and the source-query slot stays within 0..1000 |
| Metrics.ThresholdAfterQueries | src/main/java/core/Funnel.java:45-69 | from a zero source-query slot, the first 1000 source queries are counted one by one and the 1001st zeroes the whole tally |
| Metrics.QueriesKeepSound | src/main/java/core/Funnel.java:45-69 | any number of source queries keeps the table reachable |
| Metrics.FetchThenLog | src/main/java/core/Funnel.java:46-52 | registering a zeroed tally before counting does not change what the call logs |
| Core.ParseCacheToObj | src/main/java/core/Funnel.java:124-133 | a hit exactly when the text is present, not blank and decodes; a hit is the decoder's value |
| Core.NullResultNeverHits | src/main/java/core/Funnel.java:152-154 | a null source answer is cached as "", which the next probe reads as a miss |
| Core.SavedValueHits | src/main/java/core/Funnel.java:101-108 | with a decoder that inverts the encoder, the value `queryFromDB` saved is served by the next flat probe of that key |
| Core.Funnel.constructor | src/main/java/core/Funnel.java:27-36 | the funnel starts with no functions set, no result, expiry 1800 and an empty service name |
| Core.Funnel.Bind | src/main/java/core/Funnel.java:71-75 | sets the query function and predicate, returns the funnel itself, and changes nothing else |
| Core.Funnel.UseCache | src/main/java/core/Funnel.java:77-80 | sets the key function, returns the funnel itself, and changes nothing else |
| Core.Funnel.CacheResult | src/main/java/core/Funnel.java:82-85 | sets the projection, returns the funnel itself, and changes nothing else |
| Core.Funnel.ConfigFunnel | src/main/java/core/Funnel.java:87-91 | sets the service name and expiry, returns the funnel itself, and changes nothing else |
| Core.Funnel.Get | src/main/java/core/Funnel.java:101-108 | always counts one probe; a decodable non-blank cached value is returned and counted as a hit, and the store is untouched; otherwise the call goes on to `queryFromDB` |
| Core.Funnel.QueryFromCache | src/main/java/core/Funnel.java:119-122 | counts a probe and returns the stored value or nothing |
| Core.Funnel.QueryFromDb | src/main/java/core/Funnel.java:146-158 | counts a source query first; without a query function it returns null and writes nothing; otherwise it saves the encoded answer under the key with the configured expiry and returns the answer unchanged; an encoding failure propagates |
| Core.Funnel.GetWithCache | src/main/java/core/Funnel.java:160-163 | installs the recovery function and then behaves as private `get(T)` |
| Core.Funnel.GetByRequest | src/main/java/core/Funnel.java:165-191 | a null request changes nothing; an accepted candidate is returned as a hit without a source query; the result is `res` when the predicate accepts it and null otherwise; the hash space changes only when the fresh result is accepted and a projection is set; a null predicate after a source query throws |
| Core.Funnel.Recover | src/main/java/core/Funnel.java:169-177 | `res` becomes the recovered value of a complete snapshot and otherwise keeps the previous call's result |
| Core.Funnel.ProbeHash | src/main/java/core/Funnel.java:169-174 | with a key function set, one probe is counted and a snapshot comes back exactly when the hash read is complete |
| Core.Funnel.Settle | src/main/java/core/Funnel.java:178-190 | from the predicate test onwards, private `get(T)` behaves as the specification predicate `Settled` says |
| Core.Funnel.Refresh | src/main/java/core/Funnel.java:182-188 | counts a source query, stores the answer in `res`, throws on a null predicate, and caches only an accepted answer when a projection is set |
| Core.Funnel.Project | src/main/java/core/Funnel.java:185-188 | the store is written only for an accepted result with a projection set, and then exactly as `cache` writes it |
| Core.Funnel.QueryHashFromCache | src/main/java/core/Funnel.java:193-200 | returns a new snapshot of the descriptor and the values read exactly when `HashProbe` finds a complete read, and null otherwise |
| Core.HashProbeAllOrNothing | src/main/java/core/Funnel.java:193-200 | a snapshot is produced exactly when the key name is not blank, the field list is not empty and every field is stored; its values are then the stored ones in field order, blank values included |
| Core.PartialHashIsMiss | src/main/java/core/Funnel.java:197-199 | one missing field makes the whole read a miss, whatever the other fields hold |
| Core.Funnel.Cache | src/main/java/core/Funnel.java:202-218 | the loop builds the map `fields[i] -> values[i]`; the store changes exactly as `CacheWrite` says; too few values throws IndexOutOfBoundsException |
| Core.FieldMapKeys | src/main/java/core/Funnel.java:207-213 | the built map holds every field and no other key |
| Core.FieldMapLastWins | src/main/java/core/Funnel.java:207-213 | a field repeated in the list gets the value at its last position |
| Core.CacheWriteShape | src/main/java/core/Funnel.java:202-218 | an exception exactly when every part is present but there are fewer values than fields; a snapshot with a non-blank key name, a non-empty field list and enough values is written with `hmset` as the map `FieldMap(fields, values)`, and no other snapshot is written; a write holds every field with its last value |
| Core.CacheThenProbe | src/main/java/core/Funnel.java:193-218 | round trip: after `cache` writes a snapshot, a probe of the same descriptor is a complete read that returns each field's last value |
| Core.CacheThenProbeDistinct | src/main/java/core/Funnel.java:193-218 | with distinct field names the round trip returns the cached value list itself |
| Core.GateOnlyPassesAccepted | src/main/java/core/Funnel.java:190 | without a predicate nothing is returned; a returned value is one the predicate accepts |

## Left out

- Logging through SLF4J (Funnel.java:57, 129, 149 and 155) has no effect on behaviour. Building the log line also calls `toJsonQuietly(req)`, which can throw for a request the encoder cannot handle; the model does not include that throw.
- Concurrent use of the shared counter table is not modelled. The model is sequential.
- The `TypeReference` overloads of `get` and `parseCache2Obj` (Funnel.java:110-117, 135-144) repeat the `Class` versions line for line, so only one version is modelled.
- `isEmpty` dispatches on the runtime type. The model has one predicate per concrete type (string, list, map). The only other object that reaches it is a `KeyAware` (Funnel.java:194); it takes the final `return false` branch, so the model tests it for null only. Arrays never reach it.
- The abstract `build()` hook and `getCacheTool()` are wiring only. The store and the counter are given to the constructor.
- Jackson's encoding and decoding are not part of this model. The encoder and the decoder are parameters.
- Tools.ToJsonQuietly: a `String` argument is returned unchanged without encoding. The model's generic encoder cannot distinguish a `String`, so that case is left to the encoder.
- Expiry is recorded but never takes effect.
- Java lists are values here. A list shared between a `KeyAware` and its caller is not aliased, and a null element inside a list is not represented.
- Exceptions thrown by the injected functions themselves are not modelled.
- A null `serviceName` is not represented; a Java `HashMap` accepts a null key.
- Tools.Store.HmGet: a concrete adapter may pad missing fields with nulls instead of leaving them out. The model leaves them out, so a partial read is a shorter list.
