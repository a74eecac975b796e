/** The generation of descriptions: what is still pending is batched and tried again, wave after
    wave, until nothing is pending or everything left has used up its tries. */
module Descriptions {
  import opened Common

  type Id = string

  const DEFAULT_BATCH_SIZE := 5

  /** One reading of what is pending; a wave may have described any of it, or none. */
  datatype Read = Failed | Listed(ids: seq<Id>)

  datatype Outcome = Finished | ReadFailed | GaveUp(failed: set<Id>)

  // ---------- Batches ----------

  function Concat<T>(batches: seq<seq<T>>): seq<T> {
    if batches == [] then [] else Concat(Front(batches)) + Last(batches)
  }

  lemma {:induction false} ConcatMore<T>(batches: seq<seq<T>>, batch: seq<T>)
    ensures Concat(batches + [batch]) == Concat(batches) + batch
  {
    assert Front(batches + [batch]) == batches;
  }

  function BatchSize(size: int): (n: int)
    ensures n > 0 && (n == size || (size <= 0 && n == 5))
  {
    if size <= 0 then DEFAULT_BATCH_SIZE else size
  }

  /** No batch empty or too large, and none but perhaps the last short. */
  predicate Sized<T>(batches: seq<seq<T>>, size: int, full: bool) {
    && (forall i | 0 <= i < |batches| :: 0 < |batches[i]| <= size)
    && (forall i | 0 <= i < |batches| - 1 :: |batches[i]| == size)
    && (full && batches != [] ==> |Last(batches)| == size)
  }

  lemma {:induction false} SizedMore<T>(batches: seq<seq<T>>, batch: seq<T>, size: int, full: bool)
    requires Sized(batches, size, true) && 0 < |batch| <= size && (full ==> |batch| == size)
    ensures Sized(batches + [batch], size, full)
  {
    var all := batches + [batch];
    assert forall i | 0 <= i < |batches| :: all[i] == batches[i];
    assert batches != [] ==> Last(batches) == batches[|batches| - 1];
  }

  /** Batches in order, all full except perhaps the last, and none empty. */
  method ChunkDescriptionResources<T>(resources: seq<T>, batchSize: int) returns (batches: seq<seq<T>>)
    ensures Concat(batches) == resources
    ensures Sized(batches, BatchSize(batchSize), false)
  {
    var size := batchSize;
    if size <= 0 {
      size := DEFAULT_BATCH_SIZE;
    }
    batches := [];
    var start := 0;
    while start < |resources|
      invariant 0 <= start
      invariant Concat(batches) == if start < |resources| then resources[..start] else resources
      invariant Sized(batches, size, start < |resources|)
    {
      var end := start + size;
      if end > |resources| {
        end := |resources|;
      }
      var batch := resources[start..end];
      ConcatMore(batches, batch);
      TakeStretch(resources, start, end);
      SizedMore(batches, batch, size, start + size < |resources|);
      batches := batches + [batch];
      start := start + size;
    }
  }

  // ---------- Tries ----------

  /** How often a resource has been in a wave. */
  function Tries(waves: seq<seq<Id>>, id: Id): nat {
    if waves == [] then 0 else Tries(Front(waves), id) + multiset(Last(waves))[id]
  }

  /** The listed resources that may be tried again, in order. */
  function Retryable(waves: seq<seq<Id>>, ids: seq<Id>, maxRetries: int): (r: seq<Id>) {
    if ids == [] then []
    else
      Retryable(waves, Front(ids), maxRetries)
      + if Tries(waves, Last(ids)) >= maxRetries then [] else [Last(ids)]
  }

  function Ids(read: Read): seq<Id> {
    if read.Listed? then read.ids else []
  }

  /** The first n waves of a run over the given readings. */
  function Waves(readings: nat -> Read, maxRetries: int, n: nat): (w: seq<seq<Id>>)
    ensures |w| == n
  {
    if n == 0 then []
    else
      var before := Waves(readings, maxRetries, n - 1);
      before + [Retryable(before, Ids(readings(n - 1)), maxRetries)]
  }

  function SetOf(ids: seq<Id>): set<Id> {
    set id | id in ids
  }

  /** The listed resources that are out of tries. */
  function Exhausted(waves: seq<seq<Id>>, ids: seq<Id>, maxRetries: int): set<Id> {
    set id | id in ids && Tries(waves, id) >= maxRetries
  }

  /** The resources found to be out of tries in the first n readings. */
  function OutOfTries(readings: nat -> Read, maxRetries: int, n: nat): set<Id> {
    if n == 0 then {}
    else
      OutOfTries(readings, maxRetries, n - 1)
      + Exhausted(Waves(readings, maxRetries, n - 1), Ids(readings(n - 1)), maxRetries)
  }

  /** How the run ends at the reading after n waves, if it does. */
  function EndsAt(readings: nat -> Read, maxRetries: int, n: nat): Option<Outcome> {
    if readings(n).Failed? then Some(ReadFailed)
    else if readings(n).ids == [] then Some(Finished)
    else if Retryable(Waves(readings, maxRetries, n), readings(n).ids, maxRetries) == [] then
      Some(GaveUp(OutOfTries(readings, maxRetries, n + 1)))
    else None
  }

  /** What the ways to end mean: the reading failed; it listed nothing; or it listed something, and
      everything it listed has had all its tries. */
  lemma {:induction false} EndingMeans(readings: nat -> Read, maxRetries: int, n: nat)
    ensures var end, waves := EndsAt(readings, maxRetries, n), Waves(readings, maxRetries, n);
            && (end == Some(ReadFailed) <==> readings(n) == Failed)
            && (end == Some(Finished) <==> readings(n) == Listed([]))
            && (end.Some? && end.value.GaveUp?
                <==> readings(n).Listed? && readings(n).ids != []
                     && forall id | id in readings(n).ids :: Tries(waves, id) >= maxRetries)
  {
    if readings(n).Listed? {
      NoneRetryableIff(Waves(readings, maxRetries, n), readings(n).ids, maxRetries);
    }
  }

  lemma {:induction false} NoneRetryableIff(waves: seq<seq<Id>>, ids: seq<Id>, maxRetries: int)
    ensures Retryable(waves, ids, maxRetries) == [] <==> forall id | id in ids :: Tries(waves, id) >= maxRetries
  {
    if ids != [] {
      var most, last := Front(ids), Last(ids);
      assert ids == most + [last];
      NoneRetryableIff(waves, most, maxRetries);
      assert Retryable(waves, ids, maxRetries) == []
        <==> Retryable(waves, most, maxRetries) == [] && Tries(waves, last) >= maxRetries;
    }
  }

  /** The run does not end before its n-th wave. */
  ghost predicate GoesOn(readings: nat -> Read, maxRetries: int, n: nat) {
    forall k: nat | k < n :: EndsAt(readings, maxRetries, k).None?
  }

  ghost predicate WithinAt(readings: nat -> Read, all: set<Id>, n: nat) {
    Distinct(Ids(readings(n))) && forall id | id in Ids(readings(n)) :: id in all
  }

  /** Every reading lists resources of one finite set, each once. */
  ghost predicate Within(readings: nat -> Read, all: set<Id>) {
    forall n: nat :: WithinAt(readings, all, n)
  }

  lemma {:induction false} RetryableHas(waves: seq<seq<Id>>, ids: seq<Id>, maxRetries: int, id: Id)
    requires Distinct(ids)
    ensures multiset(Retryable(waves, ids, maxRetries))[id]
         == if id in ids && Tries(waves, id) < maxRetries then 1 else 0
  {
    if ids != [] {
      assert Distinct(Front(ids)) && ids == Front(ids) + [Last(ids)];
      RetryableHas(waves, Front(ids), maxRetries, id);
      assert Last(ids) !in Front(ids);
    }
  }

  /** The resources that may be tried again keep their order, each judged by itself. */
  lemma {:induction false} RetryableInOrder(waves: seq<seq<Id>>, a: seq<Id>, id: Id, b: seq<Id>, maxRetries: int)
    ensures Retryable(waves, a + [id] + b, maxRetries)
         == Retryable(waves, a, maxRetries) + (if Tries(waves, id) < maxRetries then [id] else [])
            + Retryable(waves, b, maxRetries)
  {
    if b == [] {
      assert a + [id] + b == a + [id] && Front(a + [id]) == a;
    } else {
      var all := a + [id] + b;
      RetryableInOrder(waves, a, id, Front(b), maxRetries);
      assert Front(all) == a + [id] + Front(b) && Last(all) == Last(b);
    }
  }

  /** No resource is tried more than the allowed number of times. */
  lemma {:induction false} TriesAreBounded(readings: nat -> Read, all: set<Id>, maxRetries: int, n: nat, id: Id)
    requires Within(readings, all)
    ensures Tries(Waves(readings, maxRetries, n), id) <= Max(0, maxRetries)
  {
    if n > 0 {
      var before := Waves(readings, maxRetries, n - 1);
      TriesAreBounded(readings, all, maxRetries, n - 1, id);
      assert WithinAt(readings, all, n - 1);
      RetryableHas(before, Ids(readings(n - 1)), maxRetries, id);
      assert Front(Waves(readings, maxRetries, n)) == before;
    }
  }

  // ---------- The number of waves ----------

  ghost function Pick(ids: set<Id>): (id: Id)
    requires ids != {}
    ensures id in ids
  {
    var id :| id in ids;
    id
  }

  /** The tries still left over a set of resources. */
  ghost function Left(waves: seq<seq<Id>>, ids: set<Id>, maxRetries: nat): int {
    if ids == {} then 0
    else maxRetries - Tries(waves, Pick(ids)) + Left(waves, ids - {Pick(ids)}, maxRetries)
  }

  lemma {:induction false} LeftAtFirst(ids: set<Id>, maxRetries: nat)
    ensures Left([], ids, maxRetries) == maxRetries * |ids|
  {
    if ids != {} {
      LeftAtFirst(ids - {Pick(ids)}, maxRetries);
      assert |ids| == |ids - {Pick(ids)}| + 1;
    }
  }

  lemma {:induction false} LeftIsNatural(waves: seq<seq<Id>>, ids: set<Id>, maxRetries: nat)
    requires forall id | id in ids :: Tries(waves, id) <= maxRetries
    ensures Left(waves, ids, maxRetries) >= 0
  {
    if ids != {} {
      LeftIsNatural(waves, ids - {Pick(ids)}, maxRetries);
    }
  }

  /** A wave with work in it takes tries away. */
  lemma {:induction false} WaveTakesTries(waves: seq<seq<Id>>, wave: seq<Id>, ids: set<Id>, maxRetries: nat)
    ensures Left(waves + [wave], ids, maxRetries) <= Left(waves, ids, maxRetries)
    ensures (exists id :: id in wave && id in ids) ==>
              Left(waves + [wave], ids, maxRetries) < Left(waves, ids, maxRetries)
  {
    if ids != {} {
      var first := Pick(ids);
      WaveTakesTries(waves, wave, ids - {first}, maxRetries);
      assert Front(waves + [wave]) == waves;
      forall id | id in wave && id in ids
        ensures Left(waves + [wave], ids, maxRetries) < Left(waves, ids, maxRetries)
      {
        if id == first {
          assert multiset(wave)[first] > 0;
        } else {
          assert id in ids - {first};
        }
      }
    }
  }

  lemma {:induction false} LeftAfter(readings: nat -> Read, all: set<Id>, maxRetries: nat, n: nat)
    requires Within(readings, all) && GoesOn(readings, maxRetries, n)
    ensures 0 <= Left(Waves(readings, maxRetries, n), all, maxRetries) <= maxRetries * |all| - n
  {
    if n == 0 {
      LeftAtFirst(all, maxRetries);
    } else {
      LeftAfter(readings, all, maxRetries, n - 1);
      var before, ids := Waves(readings, maxRetries, n - 1), Ids(readings(n - 1));
      var wave := Retryable(before, ids, maxRetries);
      assert EndsAt(readings, maxRetries, n - 1).None? && WithinAt(readings, all, n - 1);
      RetryableHas(before, ids, maxRetries, wave[0]);
      assert multiset(wave)[wave[0]] > 0 && wave[0] in all;
      WaveTakesTries(before, wave, all, maxRetries);
    }
    forall id | id in all ensures Tries(Waves(readings, maxRetries, n), id) <= maxRetries {
      TriesAreBounded(readings, all, maxRetries, n, id);
    }
    LeftIsNatural(Waves(readings, maxRetries, n), all, maxRetries);
  }

  lemma {:induction false} NoTriesNoWave(waves: seq<seq<Id>>, ids: seq<Id>, maxRetries: int)
    requires maxRetries <= 0
    ensures Retryable(waves, ids, maxRetries) == []
  {
    if ids != [] {
      NoTriesNoWave(waves, Front(ids), maxRetries);
    }
  }

  /** However descriptions come and go, there are at most as many waves as allowed tries. */
  lemma {:induction false} WavesAreBounded(readings: nat -> Read, all: set<Id>, maxRetries: int, n: nat)
    requires Within(readings, all) && GoesOn(readings, maxRetries, n)
    ensures n <= Max(0, maxRetries) * |all|
  {
    if maxRetries >= 0 {
      LeftAfter(readings, all, maxRetries, n);
    } else if n > 0 {
      assert EndsAt(readings, maxRetries, 0).None?;
      NoTriesNoWave([], Ids(readings(0)), maxRetries);
    }
  }

  // ---------- When descriptions never disappear ----------

  ghost predicate ShrinksAt(readings: nat -> Read, n: nat) {
    readings(n).Listed? && readings(n + 1).Listed? ==> forall id | id in readings(n + 1).ids :: id in readings(n).ids
  }

  /** What is pending was pending before. */
  ghost predicate Shrinks(readings: nat -> Read) {
    forall n: nat :: ShrinksAt(readings, n)
  }

  /** Everything pending has been in every wave. */
  lemma {:induction false} EqualTries(readings: nat -> Read, all: set<Id>, maxRetries: int, n: nat, id: Id)
    requires Within(readings, all) && Shrinks(readings)
    requires forall k: nat | k <= n :: readings(k).Listed?
    requires n <= Max(0, maxRetries) && id in readings(n).ids
    ensures Tries(Waves(readings, maxRetries, n), id) == n
  {
    if n > 0 {
      assert ShrinksAt(readings, n - 1) && WithinAt(readings, all, n - 1);
      EqualTries(readings, all, maxRetries, n - 1, id);
      var before := Waves(readings, maxRetries, n - 1);
      RetryableHas(before, Ids(readings(n - 1)), maxRetries, id);
      assert Front(Waves(readings, maxRetries, n)) == before;
    }
  }

  /** A wave that is run has a resource in it that is pending and not out of tries. */
  lemma {:induction false} WaveHasOne(readings: nat -> Read, all: set<Id>, maxRetries: int, n: nat) returns (id: Id)
    requires Within(readings, all) && EndsAt(readings, maxRetries, n).None?
    ensures readings(n).Listed? && id in readings(n).ids && Tries(Waves(readings, maxRetries, n), id) < maxRetries
  {
    var before, ids := Waves(readings, maxRetries, n), Ids(readings(n));
    var wave := Retryable(before, ids, maxRetries);
    id := wave[0];
    assert WithinAt(readings, all, n);
    assert multiset(wave)[id] > 0;
    RetryableHas(before, ids, maxRetries, id);
  }

  lemma {:induction false} ListedSoFar(readings: nat -> Read, maxRetries: int, n: nat)
    requires GoesOn(readings, maxRetries, n)
    ensures forall k: nat | k < n :: readings(k).Listed?
  {
    forall k: nat | k < n ensures readings(k).Listed? {
      assert EndsAt(readings, maxRetries, k).None?;
    }
  }

  /** A wave is run only while some tries are left. */
  lemma {:induction false} WaveIsAllowed(readings: nat -> Read, all: set<Id>, maxRetries: int, n: nat)
    requires Within(readings, all) && Shrinks(readings) && n <= Max(0, maxRetries)
    requires EndsAt(readings, maxRetries, n).None? && forall k: nat | k <= n :: readings(k).Listed?
    ensures n < Max(0, maxRetries)
  {
    var id := WaveHasOne(readings, all, maxRetries, n);
    EqualTries(readings, all, maxRetries, n, id);
  }

  lemma {:induction false} ShrinkingWaves(readings: nat -> Read, all: set<Id>, maxRetries: int, n: nat)
    requires Within(readings, all) && Shrinks(readings)
    requires GoesOn(readings, maxRetries, n)
    ensures n <= Max(0, maxRetries)
  {
    if n > 0 {
      ShrinkingWaves(readings, all, maxRetries, n - 1);
      ListedSoFar(readings, maxRetries, n);
      WaveIsAllowed(readings, all, maxRetries, n - 1);
    }
  }

  /** At one reading everything pending is in the same case. */
  lemma {:induction false} AllOrNoneOut(readings: nat -> Read, all: set<Id>, maxRetries: int, n: nat)
    requires Within(readings, all) && Shrinks(readings)
    requires n <= Max(0, maxRetries) && forall k: nat | k <= n :: readings(k).Listed?
    ensures var ids := readings(n).ids;
            Exhausted(Waves(readings, maxRetries, n), ids, maxRetries) == if n >= maxRetries then SetOf(ids) else {}
  {
    var waves, ids := Waves(readings, maxRetries, n), readings(n).ids;
    forall id | id in ids ensures Tries(waves, id) == n {
      EqualTries(readings, all, maxRetries, n, id);
    }
  }

  lemma {:induction false} NothingOutYet(readings: nat -> Read, all: set<Id>, maxRetries: int, n: nat)
    requires Within(readings, all) && Shrinks(readings)
    requires n <= Max(0, maxRetries) && forall k: nat | k < n :: readings(k).Listed?
    ensures OutOfTries(readings, maxRetries, n) == {}
  {
    if n > 0 {
      NothingOutYet(readings, all, maxRetries, n - 1);
      AllOrNoneOut(readings, all, maxRetries, n - 1);
    }
  }

  /** While descriptions never disappear a run ends after at most `maxRetries` waves; it ends
      well exactly when nothing is pending, and otherwise only after all the tries, reporting
      exactly what is still pending. */
  lemma {:induction false} ShrinkingRun(readings: nat -> Read, all: set<Id>, maxRetries: int, n: nat)
    requires Within(readings, all) && Shrinks(readings) && readings(n).Listed?
    requires EndsAt(readings, maxRetries, n).Some? && GoesOn(readings, maxRetries, n)
    ensures n <= Max(0, maxRetries)
    ensures EndsAt(readings, maxRetries, n) == Some(Finished) <==> readings(n).ids == []
    ensures readings(n).ids != [] ==>
              && n == Max(0, maxRetries)
              && EndsAt(readings, maxRetries, n) == Some(GaveUp(SetOf(readings(n).ids)))
  {
    ShrinkingWaves(readings, all, maxRetries, n);
    forall k: nat | k < n ensures readings(k).Listed? {
      assert EndsAt(readings, maxRetries, k).None?;
    }
    if readings(n).ids != [] {
      OnlyAtTheEnd(readings, all, maxRetries, n);
      AllReported(readings, all, maxRetries, n);
    }
  }

  lemma {:induction false} OnlyAtTheEnd(readings: nat -> Read, all: set<Id>, maxRetries: int, n: nat)
    requires Within(readings, all) && Shrinks(readings) && n <= Max(0, maxRetries)
    requires (forall k: nat | k <= n :: readings(k).Listed?) && readings(n).ids != []
    requires Retryable(Waves(readings, maxRetries, n), readings(n).ids, maxRetries) == []
    ensures n >= maxRetries
  {
    var waves, ids := Waves(readings, maxRetries, n), readings(n).ids;
    assert WithinAt(readings, all, n) && Ids(readings(n)) == ids;
    EqualTries(readings, all, maxRetries, n, ids[0]);
    NoneLeft(waves, ids, maxRetries, ids[0]);
  }

  lemma {:induction false} AllReported(readings: nat -> Read, all: set<Id>, maxRetries: int, n: nat)
    requires Within(readings, all) && Shrinks(readings) && maxRetries <= n <= Max(0, maxRetries)
    requires forall k: nat | k <= n :: readings(k).Listed?
    ensures OutOfTries(readings, maxRetries, n + 1) == SetOf(readings(n).ids)
  {
    NothingOutYet(readings, all, maxRetries, n);
    AllOrNoneOut(readings, all, maxRetries, n);
    assert Ids(readings(n)) == readings(n).ids;
    assert {} + SetOf(readings(n).ids) == SetOf(readings(n).ids);
  }

  /** The report names everything pending, and nothing else exactly when what ran out of tries
      at earlier readings is still pending. */
  lemma {:induction false} ReportedIsPendingIff(readings: nat -> Read, maxRetries: int, n: nat, failed: set<Id>)
    requires EndsAt(readings, maxRetries, n) == Some(GaveUp(failed))
    ensures forall id | id in readings(n).ids :: id in failed
    ensures failed == SetOf(readings(n).ids)
       <==> forall id | id in OutOfTries(readings, maxRetries, n) :: id in readings(n).ids
  {
    var waves, ids := Waves(readings, maxRetries, n), readings(n).ids;
    forall id | id in ids ensures Tries(waves, id) >= maxRetries {
      NoneLeft(waves, ids, maxRetries, id);
    }
  }

  lemma {:induction false} NoneLeft(waves: seq<seq<Id>>, ids: seq<Id>, maxRetries: int, id: Id)
    requires Retryable(waves, ids, maxRetries) == [] && id in ids
    ensures Tries(waves, id) >= maxRetries
  {
    if id != Last(ids) {
      assert ids == Front(ids) + [Last(ids)];
      NoneLeft(waves, Front(ids), maxRetries, id);
    }
  }

  /** It can be otherwise: with one try each, `a` runs out, then is described while `b` turns up
      and runs out too; both are reported, and only `b` is pending. */
  lemma {:induction false} StaleReport(readings: nat -> Read, a: Id, b: Id)
    requires a != b && readings(0) == Listed([a]) && readings(1) == Listed([a, b]) && readings(2) == Listed([b])
    ensures EndsAt(readings, 1, 0).None? && EndsAt(readings, 1, 1).None?
    ensures EndsAt(readings, 1, 2) == Some(GaveUp({a, b}))
  {
    StaleWaves(readings, a, b);
    StaleTries(a, b);
    OneRetry([], [a], a);
    OneRetry([[a]], [a, b], b);
    OneRetry([[a], [b]], [b], b);
    StaleOut(readings, a, b);
  }

  lemma {:induction false} StaleOut(readings: nat -> Read, a: Id, b: Id)
    requires a != b && readings(0) == Listed([a]) && readings(1) == Listed([a, b]) && readings(2) == Listed([b])
    ensures OutOfTries(readings, 1, 3) == {a, b}
  {
    StaleWaves(readings, a, b);
    StaleTries(a, b);
    assert OutOfTries(readings, 1, 1) == {};
    assert OutOfTries(readings, 1, 2) == {a};
  }

  lemma {:induction false} OneRetry(waves: seq<seq<Id>>, ids: seq<Id>, id: Id)
    requires ids != [] && Last(ids) == id && forall i | 0 <= i < |ids| - 1 :: Tries(waves, ids[i]) >= 1
    ensures Retryable(waves, ids, 1) == if Tries(waves, id) >= 1 then [] else [id]
  {
    if |ids| > 1 {
      OneRetry(waves, Front(ids), Last(Front(ids)));
    }
  }

  lemma {:induction false} StaleTries(a: Id, b: Id)
    requires a != b
    ensures Tries([], a) == 0 && Tries([[a]], a) == 1 && Tries([[a]], b) == 0
    ensures Tries([[a], [b]], a) == 1 && Tries([[a], [b]], b) == 1
  {
    assert Front([[a]]) == [] && Front([[a], [b]]) == [[a]];
    assert multiset([a])[a] == 1 && multiset([a])[b] == 0;
    assert multiset([b])[b] == 1 && multiset([b])[a] == 0;
  }

  lemma {:induction false} StaleWaves(readings: nat -> Read, a: Id, b: Id)
    requires a != b && readings(0) == Listed([a]) && readings(1) == Listed([a, b])
    ensures Waves(readings, 1, 0) == [] && Waves(readings, 1, 1) == [[a]] && Waves(readings, 1, 2) == [[a], [b]]
  {
    StaleTries(a, b);
    OneRetry([], [a], a);
    OneRetry([[a]], [a, b], b);
    assert Waves(readings, 1, 1) == [] + [[a]];
  }

  // ---------- The program ----------

  function Get(attempts: map<Id, nat>, id: Id): nat {
    if id in attempts then attempts[id] else 0
  }

  ghost predicate Counted(attempts: map<Id, nat>, waves: seq<seq<Id>>) {
    forall id :: Get(attempts, id) == Tries(waves, id)
  }

  ghost predicate Added(before: map<Id, nat>, after: map<Id, nat>, ids: seq<Id>) {
    forall id :: Get(after, id) == Get(before, id) + multiset(ids)[id]
  }

  lemma {:induction false} CountedNext(before: map<Id, nat>, after: map<Id, nat>, waves: seq<seq<Id>>, wave: seq<Id>)
    requires Counted(before, waves) && Added(before, after, wave)
    ensures Counted(after, waves + [wave])
  {
    assert Front(waves + [wave]) == waves;
  }

  lemma {:induction false} AddedBoth(a: map<Id, nat>, b: map<Id, nat>, c: map<Id, nat>, first: seq<Id>, second: seq<Id>)
    requires Added(a, b, first) && Added(b, c, second)
    ensures Added(a, c, first + second)
  {
  }

  /** One more try for everything in the wave, batch by batch. */
  method CountTries(before: map<Id, nat>, batches: seq<seq<Id>>) returns (attempts: map<Id, nat>)
    ensures Added(before, attempts, Concat(batches))
  {
    attempts := before;
    for i := 0 to |batches|
      invariant Added(before, attempts, Concat(batches[..i]))
    {
      var more := CountBatch(attempts, batches[i]);
      AddedBoth(before, attempts, more, Concat(batches[..i]), batches[i]);
      attempts := more;
      assert batches[..i + 1] == batches[..i] + [batches[i]];
      ConcatMore(batches[..i], batches[i]);
    }
    assert batches[..|batches|] == batches;
  }

  method CountBatch(before: map<Id, nat>, batch: seq<Id>) returns (attempts: map<Id, nat>)
    ensures Added(before, attempts, batch)
  {
    attempts := before;
    for j := 0 to |batch|
      invariant Added(before, attempts, batch[..j])
    {
      assert batch[..j + 1] == batch[..j] + [batch[j]];
      attempts := attempts[batch[j] := Get(attempts, batch[j]) + 1];
    }
    assert batch[..|batch|] == batch;
  }

  /** What may be tried again, and what is newly found to be out of tries. */
  method Sort(ghost waves: seq<seq<Id>>, attempts: map<Id, nat>, pending: seq<Id>, maxRetries: int)
    returns (retryable: seq<Id>, out: set<Id>)
    requires Counted(attempts, waves)
    ensures retryable == Retryable(waves, pending, maxRetries)
    ensures out == Exhausted(waves, pending, maxRetries)
  {
    retryable, out := [], {};
    for i := 0 to |pending|
      invariant retryable == Retryable(waves, pending[..i], maxRetries)
      invariant out == Exhausted(waves, pending[..i], maxRetries)
    {
      assert Front(pending[..i + 1]) == pending[..i];
      if Get(attempts, pending[i]) >= maxRetries {
        out := out + {pending[i]};
      } else {
        retryable := retryable + [pending[i]];
      }
    }
    assert pending[..|pending|] == pending;
  }

  /** One wave: a try for all that may be tried again; none when everything is out of tries. */
  method Wave(ghost waves: seq<seq<Id>>, before: map<Id, nat>, pending: seq<Id>, batchSize: int, maxRetries: int)
    returns (attempts: map<Id, nat>, out: set<Id>, idle: bool)
    requires Counted(before, waves)
    ensures out == Exhausted(waves, pending, maxRetries)
    ensures idle <==> Retryable(waves, pending, maxRetries) == []
    ensures !idle ==> Counted(attempts, waves + [Retryable(waves, pending, maxRetries)])
  {
    var retryable, gone := Sort(waves, before, pending, maxRetries);
    if retryable == [] {
      return before, gone, true;
    }
    var batches := ChunkDescriptionResources(retryable, batchSize);
    attempts := CountTries(before, batches);
    out, idle := gone, false;
    CountedNext(before, attempts, waves, retryable);
  }

  /** What the program knows after n waves. */
  ghost predicate After(readings: nat -> Read, maxRetries: int, n: nat, attempts: map<Id, nat>, failed: set<Id>) {
    && Counted(attempts, Waves(readings, maxRetries, n))
    && failed == OutOfTries(readings, maxRetries, n)
    && GoesOn(readings, maxRetries, n)
  }

  lemma {:induction false} EndsHere(readings: nat -> Read, maxRetries: int, n: nat, attempts: map<Id, nat>,
                                    failed: set<Id>, out: set<Id>)
    requires After(readings, maxRetries, n, attempts, failed)
    requires readings(n).Listed? && readings(n).ids != []
    requires out == Exhausted(Waves(readings, maxRetries, n), readings(n).ids, maxRetries)
    requires Retryable(Waves(readings, maxRetries, n), readings(n).ids, maxRetries) == []
    ensures EndsAt(readings, maxRetries, n) == Some(GaveUp(failed + out))
  {
  }

  lemma {:induction false} GoesFurther(readings: nat -> Read, maxRetries: int, n: nat, attempts: map<Id, nat>,
                                       failed: set<Id>,
                                       more: map<Id, nat>, out: set<Id>, all: set<Id>)
    requires After(readings, maxRetries, n, attempts, failed) && Within(readings, all)
    requires readings(n).Listed? && readings(n).ids != []
    requires out == Exhausted(Waves(readings, maxRetries, n), readings(n).ids, maxRetries)
    requires Retryable(Waves(readings, maxRetries, n), readings(n).ids, maxRetries) != []
    requires Counted(more, Waves(readings, maxRetries, n)
              + [Retryable(Waves(readings, maxRetries, n), readings(n).ids, maxRetries)])
    ensures After(readings, maxRetries, n + 1, more, failed + out)
    ensures n + 1 <= Max(0, maxRetries) * |all|
  {
    assert EndsAt(readings, maxRetries, n).None?;
    WavesAreBounded(readings, all, maxRetries, n + 1);
  }

  /** The run: it ends, at the first reading where it can, in the way it must. */
  method RunDescriptionGeneration(readings: nat -> Read, ghost all: set<Id>, batchSize: int, maxRetries: int)
    returns (outcome: Outcome, waves: nat)
    requires Within(readings, all)
    ensures EndsAt(readings, maxRetries, waves) == Some(outcome)
    ensures GoesOn(readings, maxRetries, waves)
  {
    var attempts: map<Id, nat>, failed: set<Id> := map[], {};
    waves := 0;
    ghost var most := Max(0, maxRetries) * |all|;
    assert After(readings, maxRetries, 0, attempts, failed);
    while true
      invariant After(readings, maxRetries, waves, attempts, failed)
      decreases most - waves
    {
      var read := readings(waves);
      if read.Failed? {
        return ReadFailed, waves;
      }
      var pending := read.ids;
      if pending == [] {
        return Finished, waves;
      }
      var more, out, idle := Wave(Waves(readings, maxRetries, waves), attempts, pending, batchSize, maxRetries);
      if idle {
        EndsHere(readings, maxRetries, waves, attempts, failed, out);
        return GaveUp(failed + out), waves;
      }
      GoesFurther(readings, maxRetries, waves, attempts, failed, more, out, all);
      attempts, failed, waves := more, failed + out, waves + 1;
    }
  }
}
