/** The funnel's telemetry: one process-wide table from service name to a
    three-slot tally of cache probes, cache hits and source queries. A tally
    is created zeroed on first use and is zeroed again as soon as its
    source-query slot passes the threshold. */
module Metrics {
  import opened Lang

  const QRY_CACHE: int := 0
  const CACHE_EXISTS: int := 1
  const QRY_DB: int := 2
  const QRY_DB_THRESHOLD: int := 1000

  function Zeroed(): seq<int> {
    [0, 0, 0]
  }

  /** Every tally has the three slots of an `int[3]`. */
  predicate Shaped(tallies: map<string, seq<int>>) {
    forall s :: s in tallies ==> |tallies[s]| == 3
  }

  /** The state every reachable table is in: slots are Java ints and the
      source-query slot never passes the threshold. */
  predicate Sound(tallies: map<string, seq<int>>) {
    forall s :: s in tallies ==>
      |tallies[s]| == 3 && IsInt(tallies[s][QRY_CACHE]) && IsInt(tallies[s][CACHE_EXISTS])
      && 0 <= tallies[s][QRY_DB] <= QRY_DB_THRESHOLD
  }

  /** The tally of `service` before a call: the stored one, or a zeroed one
      for a service not seen yet. */
  function TallyOf(tallies: map<string, seq<int>>, service: string): (t: seq<int>)
    requires Shaped(tallies)
    ensures |t| == 3
  {
    if service in tallies then tallies[service] else Zeroed()
  }

  /** The tally after counting `step` and before the threshold test. */
  function Bumped(tallies: map<string, seq<int>>, service: string, step: int): (t: seq<int>)
    requires Shaped(tallies)
    ensures |t| == 3
  {
    var t := TallyOf(tallies, service);
    if -1 < step < 3 then t[step := Inc(t[step])] else t
  }

  /** The table after one `logCache(step)` by `service`. */
  function LogStep(tallies: map<string, seq<int>>, service: string, step: int): (r: map<string, seq<int>>)
    requires Shaped(tallies)
    ensures Shaped(r)
  {
    var t := Bumped(tallies, service, step);
    tallies[service := if t[QRY_DB] > QRY_DB_THRESHOLD then Zeroed() else t]
  }

  /** Only the caller's own tally is touched, and it exists afterwards. */
  lemma LogStepFrame(tallies: map<string, seq<int>>, service: string, step: int)
    requires Shaped(tallies)
    ensures LogStep(tallies, service, step).Keys == tallies.Keys + {service}
    ensures forall s :: s in tallies && s != service ==> LogStep(tallies, service, step)[s] == tallies[s]
  {
  }

  /** Whatever the table held before, the caller's source-query slot is at
      most the threshold afterwards. */
  lemma LogStepBounded(tallies: map<string, seq<int>>, service: string, step: int)
    requires Shaped(tallies)
    ensures LogStep(tallies, service, step)[service][QRY_DB] <= QRY_DB_THRESHOLD
  {
  }

  /** Unless this call is the source query that passes the threshold, and
      zeroes the tally, counting adds one to slot `step` (with Java's
      wrap-around) and leaves the other slots as they were; a step outside
      0..2 counts nothing. A service seen for the first time starts from a
      zeroed tally. */
  lemma LogStepCounts(tallies: map<string, seq<int>>, service: string, step: int)
    requires Sound(tallies)
    ensures var r := LogStep(tallies, service, step)[service];
      var t := if service in tallies then tallies[service] else [0, 0, 0];
      var reset := step == QRY_DB && t[QRY_DB] == QRY_DB_THRESHOLD;
      && (reset ==> r == Zeroed())
      && (!reset ==> forall i :: 0 <= i < 3 ==> r[i] == (if i == step then Inc(t[i]) else t[i]))
  {
  }

  /** From a reachable table, the tally is zeroed exactly when this call is
      the one that takes the source-query slot past the threshold. */
  lemma LogStepResetsAtThreshold(tallies: map<string, seq<int>>, service: string, step: int)
    requires Sound(tallies)
    ensures var t := if service in tallies then tallies[service] else [0, 0, 0];
      var reset := step == QRY_DB && t[QRY_DB] == QRY_DB_THRESHOLD;
      (reset ==> LogStep(tallies, service, step)[service] == [0, 0, 0])
      && (!reset ==> LogStep(tallies, service, step)[service][QRY_DB] == t[QRY_DB] + (if step == QRY_DB then 1 else 0))
  {
  }

  /** Every call keeps the table reachable. */
  lemma LogStepSound(tallies: map<string, seq<int>>, service: string, step: int)
    requires Sound(tallies)
    ensures Sound(LogStep(tallies, service, step))
  {
  }

  /** The table after `n` calls of `logCache(QRY_DB)` by one service. */
  function LogQueries(tallies: map<string, seq<int>>, service: string, n: nat): (r: map<string, seq<int>>)
    requires Shaped(tallies)
    ensures Shaped(r)
  {
    if n == 0 then tallies else LogStep(LogQueries(tallies, service, n - 1), service, QRY_DB)
  }

  /** Starting from a tally whose source-query slot is zero, the first 1000
      source queries are counted one by one; the 1001st zeroes the whole
      tally. */
  lemma {:induction false} ThresholdAfterQueries(tallies: map<string, seq<int>>, service: string, n: nat)
    requires Sound(tallies)
    requires service in tallies ==> tallies[service][QRY_DB] == 0
    requires n <= QRY_DB_THRESHOLD + 1
    ensures n <= QRY_DB_THRESHOLD ==> TallyOf(LogQueries(tallies, service, n), service)[QRY_DB] == n
    ensures n == QRY_DB_THRESHOLD + 1 ==> LogQueries(tallies, service, n)[service] == [0, 0, 0]
  {
    if n > 0 {
      ThresholdAfterQueries(tallies, service, n - 1);
      QueriesKeepSound(tallies, service, n - 1);
    }
  }

  lemma {:induction false} QueriesKeepSound(tallies: map<string, seq<int>>, service: string, n: nat)
    requires Sound(tallies)
    ensures Sound(LogQueries(tallies, service, n))
  {
    if n > 0 {
      QueriesKeepSound(tallies, service, n - 1);
    }
  }

  /** Registering a zeroed tally first does not change what a call logs. */
  lemma FetchThenLog(tallies: map<string, seq<int>>, service: string, step: int)
    requires Shaped(tallies)
    ensures Shaped(tallies[service := TallyOf(tallies, service)])
    ensures LogStep(tallies[service := TallyOf(tallies, service)], service, step) == LogStep(tallies, service, step)
  {
    var fetched := tallies[service := TallyOf(tallies, service)];
    assert Bumped(fetched, service, step) == Bumped(tallies, service, step);
  }

  /** The counter table: `Funnel.counter`. Each service's tally is an
      `int[3]` array of its own; `Contents` is the table's value. */
  class Counter {
    var tallies: map<string, array<int>>
    ghost var Contents: map<string, seq<int>>
    ghost var Arrays: set<array<int>>

    ghost predicate Valid()
      reads this, Arrays
    {
      && tallies.Keys == Contents.Keys
      && (forall s :: s in tallies ==>
            tallies[s] in Arrays && tallies[s].Length == 3 && tallies[s][..] == Contents[s])
      && (forall s, t :: s in tallies && t in tallies && s != t ==> tallies[s] != tallies[t])
    }

    lemma ValidShaped()
      requires Valid()
      ensures Shaped(Contents)
    {
      forall s | s in Contents
        ensures |Contents[s]| == 3
      {
        assert s in tallies;
      }
    }

    constructor ()
      ensures Valid() && Arrays == {}
      ensures Contents == map[]
    {
      tallies := map[];
      Contents := map[];
      Arrays := {};
    }

    /** `logCache(step)` on behalf of `service`. */
    method LogCache(service: string, step: int)
      requires Valid()
      modifies this, Arrays
      ensures Valid() && fresh(Arrays - old(Arrays))
      ensures old(Shaped(Contents)) && Contents == LogStep(old(Contents), service, step)
    {
      ValidShaped();
      ghost var before := Contents;
      var operIndex := TallyFor(service);
      FetchThenLog(before, service, step);
      CountAndCheck(service, step);
    }

    /** The second half of `logCache`: count `step` on the tally of
        `service`, then zero the tally if it has passed the threshold. */
    method CountAndCheck(service: string, step: int)
      requires Valid() && service in tallies
      modifies this, tallies[service]
      ensures Valid() && Arrays == old(Arrays) && tallies == old(tallies)
      ensures old(Shaped(Contents)) && Contents == LogStep(old(Contents), service, step)
    {
      ValidShaped();
      ghost var before := Contents;
      ghost var bumped := Bumped(before, service, step);
      var operIndex := tallies[service];
      if -1 < step < 3 {
        Count(service, step);
      } else {
        assert before == before[service := bumped];
      }
      assert operIndex[..] == bumped;
      if operIndex[QRY_DB] > QRY_DB_THRESHOLD {
        ResetCounter(service);
        assert Contents == before[service := Zeroed()];
      }
    }

    /** The first half of `logCache`: fetch the tally of `service`, or
        create and register a zeroed one. */
    method TallyFor(service: string) returns (operIndex: array<int>)
      requires Valid()
      modifies this
      ensures Valid() && fresh(Arrays - old(Arrays))
      ensures service in tallies && operIndex == tallies[service]
      ensures tallies == old(tallies)[service := operIndex]
      ensures service in old(tallies) ==> operIndex == old(tallies)[service] && Arrays == old(Arrays)
      ensures old(Shaped(Contents)) && Contents == old(Contents)[service := TallyOf(old(Contents), service)]
    {
      ValidShaped();
      if service in tallies {
        operIndex := tallies[service];
        assert Contents == Contents[service := TallyOf(Contents, service)];
      } else {
        operIndex := new int[3](_ => 0);
        assert operIndex[..] == Zeroed();
        tallies := tallies[service := operIndex];
        Contents := Contents[service := operIndex[..]];
        Arrays := Arrays + {operIndex};
      }
    }

    /** `operIndex[step]++` on the tally of `service`. */
    method Count(service: string, step: int)
      requires Valid() && service in tallies && 0 <= step < 3
      modifies this, tallies[service]
      ensures Valid() && Arrays == old(Arrays) && tallies == old(tallies)
      ensures old(Shaped(Contents)) && Contents == old(Contents)[service := Bumped(old(Contents), service, step)]
    {
      ValidShaped();
      var operIndex := tallies[service];
      operIndex[step] := Inc(operIndex[step]);
      Contents := Contents[service := operIndex[..]];
    }

    /** `resetCounter()`: zeroes every slot of the tally of `service`. */
    method ResetCounter(service: string)
      requires Valid() && service in tallies
      modifies this, tallies[service]
      ensures Valid() && Arrays == old(Arrays) && tallies == old(tallies)
      ensures Contents == old(Contents)[service := Zeroed()]
    {
      var operIndex := tallies[service];
      var i := 0;
      while i < operIndex.Length
        invariant 0 <= i <= operIndex.Length
        invariant forall k :: 0 <= k < i ==> operIndex[k] == 0
        modifies operIndex
      {
        operIndex[i] := 0;
        i := i + 1;
      }
      assert operIndex[..] == Zeroed();
      Contents := Contents[service := operIndex[..]];
    }
  }
}
