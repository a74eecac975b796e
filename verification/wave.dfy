/** One wave of description batches: a feeder, a few workers and a collector on two channels. */
module Wave {
  import opened Common
  import opened Descriptions

  type Batch = seq<Id>

  datatype Worker = Idle | Busy(batch: Batch) | Exited

  datatype State = State(
    fed: nat,                  // batches handed over so far
    jobsClosed: bool,
    workers: seq<Worker>,
    buffer: seq<Batch>,        // results no one has taken yet
    resultsClosed: bool,
    collected: seq<Batch>,
    bar: nat,                  // what the progress bar has counted
    returned: bool)

  datatype Event =
    | Hand(worker: nat)        // the feeder and an idle worker meet on the unbuffered channel
    | CloseJobs
    | Finish(worker: nat)      // a worker puts its result in the buffer
    | Exit(worker: nat)
    | CloseResults
    | Collect
    | Return

  /** No more workers than batches. */
  function Crew(batches: seq<Batch>, parallel: int): int {
    if parallel > |batches| then |batches| else parallel
  }

  function Begin(batches: seq<Batch>, parallel: int): State {
    State(0, false, seq(Max(0, Crew(batches, parallel)), _ => Idle), [], false, [], 0, false)
  }

  predicate Enabled(batches: seq<Batch>, st: State, e: Event) {
    match e
    case Hand(w) => st.fed < |batches| && w < |st.workers| && st.workers[w].Idle?
    case CloseJobs => st.fed == |batches| && !st.jobsClosed
    case Finish(w) => w < |st.workers| && st.workers[w].Busy? && |st.buffer| < |batches|
    case Exit(w) => st.jobsClosed && w < |st.workers| && st.workers[w].Idle?
    case CloseResults => st.jobsClosed && !st.resultsClosed && forall w | 0 <= w < |st.workers| :: st.workers[w].Exited?
    case Collect => st.buffer != [] && !st.returned
    case Return => st.buffer == [] && st.resultsClosed && !st.returned
  }

  function Apply(batches: seq<Batch>, st: State, e: Event): State
    requires Enabled(batches, st, e)
  {
    match e
    case Hand(w) => st.(fed := st.fed + 1, workers := st.workers[w := Busy(batches[st.fed])])
    case CloseJobs => st.(jobsClosed := true)
    case Finish(w) => st.(buffer := st.buffer + [st.workers[w].batch], workers := st.workers[w := Idle])
    case Exit(w) => st.(workers := st.workers[w := Exited])
    case CloseResults => st.(resultsClosed := true)
    case Collect =>
      var batch := st.buffer[0];
      st.(buffer := st.buffer[1..], collected := st.collected + [batch], bar := st.bar + |batch|)
    case Return => st.(returned := true)
  }

  predicate Legal(batches: seq<Batch>, parallel: int, es: seq<Event>)
    decreases |es|, 0
  {
    es != [] ==> Legal(batches, parallel, Front(es)) && Enabled(batches, After(batches, parallel, Front(es)), Last(es))
  }

  function After(batches: seq<Batch>, parallel: int, es: seq<Event>): State
    requires Legal(batches, parallel, es)
    decreases |es|, 1
  {
    if es == [] then Begin(batches, parallel)
    else Apply(batches, After(batches, parallel, Front(es)), Last(es))
  }

  // ---------- Weights ----------

  /** The batches in a list, each counted by a weight. */
  function Sum(f: Batch -> nat, batches: seq<Batch>): nat {
    if batches == [] then 0 else Sum(f, Front(batches)) + f(Last(batches))
  }

  function WeightOf(f: Batch -> nat, w: Worker): nat {
    if w.Busy? then f(w.batch) else 0
  }

  function Held(f: Batch -> nat, workers: seq<Worker>): nat {
    if workers == [] then 0 else Held(f, Front(workers)) + WeightOf(f, Last(workers))
  }

  function Work(w: Worker): nat {
    match w
    case Idle => 1
    case Busy(_) => 3
    case Exited => 0
  }

  function TotalWork(workers: seq<Worker>): nat {
    if workers == [] then 0 else TotalWork(Front(workers)) + Work(Last(workers))
  }

  /** One worker changes. */
  lemma {:induction false} HeldChanges(f: Batch -> nat, workers: seq<Worker>, w: nat, next: Worker)
    requires w < |workers|
    ensures Held(f, workers[w := next]) + WeightOf(f, workers[w]) == Held(f, workers) + WeightOf(f, next)
  {
    var changed, n := workers[w := next], |workers| - 1;
    if w == n {
      assert changed[..n] == workers[..n];
    } else {
      HeldChanges(f, workers[..n], w, next);
      assert changed[..n] == workers[..n][w := next];
    }
  }

  lemma {:induction false} WorkChanges(workers: seq<Worker>, w: nat, next: Worker)
    requires w < |workers|
    ensures TotalWork(workers[w := next]) + Work(workers[w]) == TotalWork(workers) + Work(next)
  {
    var changed, n := workers[w := next], |workers| - 1;
    if w == n {
      assert changed[..n] == workers[..n];
    } else {
      WorkChanges(workers[..n], w, next);
      assert changed[..n] == workers[..n][w := next];
    }
  }

  lemma {:induction false} HeldByOne(f: Batch -> nat, workers: seq<Worker>, w: nat)
    requires w < |workers|
    ensures Held(f, workers) >= WeightOf(f, workers[w])
  {
    if w < |workers| - 1 {
      HeldByOne(f, Front(workers), w);
    }
  }

  lemma {:induction false} HeldByNone(f: Batch -> nat, workers: seq<Worker>)
    requires forall w | 0 <= w < |workers| :: !workers[w].Busy?
    ensures Held(f, workers) == 0
  {
    if workers != [] {
      HeldByNone(f, Front(workers));
    }
  }

  lemma {:induction false} CrewWork(workers: seq<Worker>)
    requires forall w | 0 <= w < |workers| :: workers[w].Idle?
    ensures TotalWork(workers) == |workers|
  {
    if workers != [] {
      CrewWork(Front(workers));
    }
  }

  lemma {:induction false} SumMore(f: Batch -> nat, batches: seq<Batch>, b: Batch)
    ensures Sum(f, batches + [b]) == Sum(f, batches) + f(b)
  {
    assert Front(batches + [b]) == batches;
  }

  lemma {:induction false} SumLess(f: Batch -> nat, buffer: seq<Batch>)
    requires buffer != []
    ensures Sum(f, buffer) == f(buffer[0]) + Sum(f, buffer[1..])
  {
    if |buffer| > 1 {
      SumLess(f, Front(buffer));
      assert Front(buffer)[1..] == Front(buffer[1..]);
    } else {
      assert Front(buffer) == [] && buffer[1..] == [];
    }
  }

  /** Three weights: how often one batch is there, how many batches, how many resources. */
  function Only(x: Batch): Batch -> nat {
    (b: Batch) => if b == x then 1 else 0
  }

  function Each(): Batch -> nat {
    (b: Batch) => 1
  }

  function Length(): Batch -> nat {
    (b: Batch) => |b|
  }

  lemma {:induction false} SumOnly(x: Batch, batches: seq<Batch>)
    ensures Sum(Only(x), batches) == multiset(batches)[x]
  {
    if batches != [] {
      SumOnly(x, Front(batches));
      assert batches == Front(batches) + [Last(batches)];
    }
  }

  lemma {:induction false} SumEach(batches: seq<Batch>)
    ensures Sum(Each(), batches) == |batches|
  {
    if batches != [] {
      SumEach(Front(batches));
    }
  }

  lemma {:induction false} SumLength(batches: seq<Batch>)
    ensures Sum(Length(), batches) == |Concat(batches)|
  {
    if batches != [] {
      SumLength(Front(batches));
    }
  }

  // ---------- What every run keeps ----------

  /** What was handed over is with a worker, in the buffer or collected, by any weight. */
  ghost predicate Conserved(f: Batch -> nat, batches: seq<Batch>, st: State) {
    && st.fed <= |batches|
    && Sum(f, batches[..st.fed]) == Held(f, st.workers) + Sum(f, st.buffer) + Sum(f, st.collected)
  }

  /** The channels are closed only when no one can send on them any more. */
  predicate ClosedInOrder(batches: seq<Batch>, st: State) {
    && (st.jobsClosed ==> st.fed == |batches|)
    && (forall w | 0 <= w < |st.workers| && st.workers[w].Exited? :: st.jobsClosed)
    && (st.resultsClosed ==> st.jobsClosed && forall w | 0 <= w < |st.workers| :: st.workers[w].Exited?)
    && (st.returned ==> st.resultsClosed && st.buffer == [])
  }

  lemma {:induction false} ConservedStep(f: Batch -> nat, batches: seq<Batch>, st: State, e: Event)
    requires Conserved(f, batches, st) && Enabled(batches, st, e)
    ensures Conserved(f, batches, Apply(batches, st, e))
  {
    match e {
      case Hand(w) =>
        HeldChanges(f, st.workers, w, Busy(batches[st.fed]));
        assert batches[..st.fed + 1] == batches[..st.fed] + [batches[st.fed]];
        SumMore(f, batches[..st.fed], batches[st.fed]);
      case Finish(w) =>
        HeldChanges(f, st.workers, w, Idle);
        SumMore(f, st.buffer, st.workers[w].batch);
      case Exit(w) => HeldChanges(f, st.workers, w, Exited);
      case Collect =>
        SumLess(f, st.buffer);
        SumMore(f, st.collected, st.buffer[0]);
      case _ =>
    }
  }

  lemma {:induction false} AlwaysConserved(f: Batch -> nat, batches: seq<Batch>, parallel: int, es: seq<Event>)
    requires Legal(batches, parallel, es)
    ensures Conserved(f, batches, After(batches, parallel, es))
  {
    if es == [] {
      HeldByNone(f, Begin(batches, parallel).workers);
      assert batches[..0] == [];
    } else {
      AlwaysConserved(f, batches, parallel, Front(es));
      ConservedStep(f, batches, After(batches, parallel, Front(es)), Last(es));
    }
  }

  lemma {:induction false} BarStep(batches: seq<Batch>, st: State, e: Event)
    requires st.bar == Sum(Length(), st.collected) && Enabled(batches, st, e)
    ensures Apply(batches, st, e).bar == Sum(Length(), Apply(batches, st, e).collected)
  {
    if e.Collect? {
      SumMore(Length(), st.collected, st.buffer[0]);
    }
  }

  lemma {:induction false} ClosedStep(batches: seq<Batch>, st: State, e: Event)
    requires ClosedInOrder(batches, st) && Enabled(batches, st, e)
    ensures ClosedInOrder(batches, Apply(batches, st, e))
    ensures |Apply(batches, st, e).workers| == |st.workers|
  {
  }

  ghost predicate Kept(batches: seq<Batch>, parallel: int, st: State) {
    && ClosedInOrder(batches, st)
    && st.bar == Sum(Length(), st.collected)
    && |st.workers| == Max(0, Crew(batches, parallel))
  }

  lemma {:induction false} AlwaysKept(batches: seq<Batch>, parallel: int, es: seq<Event>)
    requires Legal(batches, parallel, es)
    ensures Kept(batches, parallel, After(batches, parallel, es))
  {
    if es != [] {
      AlwaysKept(batches, parallel, Front(es));
      var st := After(batches, parallel, Front(es));
      ClosedStep(batches, st, Last(es));
      BarStep(batches, st, Last(es));
    }
  }

  lemma {:induction false} RoomForResults(batches: seq<Batch>, st: State, w: nat)
    requires Conserved(Each(), batches, st) && w < |st.workers| && st.workers[w].Busy?
    ensures |st.buffer| < |batches|
  {
    HeldByOne(Each(), st.workers, w);
    SumEach(batches[..st.fed]);
    SumEach(st.buffer);
  }

  /** A worker with a result never waits for room: the buffer holds a place for every batch. */
  lemma {:induction false} ResultsNeverBlock(batches: seq<Batch>, parallel: int, es: seq<Event>, w: nat)
    requires Legal(batches, parallel, es)
    requires w < |After(batches, parallel, es).workers| && After(batches, parallel, es).workers[w].Busy?
    ensures Enabled(batches, After(batches, parallel, es), Finish(w))
  {
    AlwaysConserved(Each(), batches, parallel, es);
    RoomForResults(batches, After(batches, parallel, es), w);
  }

  /** When the wave returns, its results are the batches in some order, and the bar has counted
      every resource. */
  lemma {:induction false} WaveIsAPermutation(batches: seq<Batch>, parallel: int, es: seq<Event>)
    requires Legal(batches, parallel, es) && After(batches, parallel, es).returned
    ensures multiset(After(batches, parallel, es).collected) == multiset(batches)
    ensures After(batches, parallel, es).bar == |Concat(batches)|
  {
    var st := After(batches, parallel, es);
    AlwaysKept(batches, parallel, es);
    forall x: Batch ensures multiset(st.collected)[x] == multiset(batches)[x] {
      AllCollected(Only(x), batches, parallel, es);
      SumOnly(x, st.collected);
      SumOnly(x, batches);
    }
    AllCollected(Length(), batches, parallel, es);
    SumLength(batches);
  }

  /** So over the batches of a list of resources the bar ends at the length of that list. */
  lemma {:induction false} BarCountsResources(resources: seq<Id>, batches: seq<Batch>, parallel: int, es: seq<Event>)
    requires Concat(batches) == resources
    requires Legal(batches, parallel, es) && After(batches, parallel, es).returned
    ensures After(batches, parallel, es).bar == |resources|
  {
    WaveIsAPermutation(batches, parallel, es);
  }

  lemma {:induction false} AllCollected(f: Batch -> nat, batches: seq<Batch>, parallel: int, es: seq<Event>)
    requires Legal(batches, parallel, es) && After(batches, parallel, es).returned
    ensures Sum(f, After(batches, parallel, es).collected) == Sum(f, batches)
  {
    AlwaysKept(batches, parallel, es);
    AlwaysConserved(f, batches, parallel, es);
    HeldByNone(f, After(batches, parallel, es).workers);
    assert batches[..|batches|] == batches;
  }

  // ---------- Progress ----------

  predicate AllExited(workers: seq<Worker>) {
    forall w | 0 <= w < |workers| :: workers[w].Exited?
  }

  /** A step for a worker that has not left yet. */
  lemma {:induction false} WorkerCanMove(batches: seq<Batch>, st: State, w: nat) returns (e: Event)
    requires Conserved(Each(), batches, st) && st.buffer == [] && w < |st.workers| && !st.workers[w].Exited?
    ensures Enabled(batches, st, e)
  {
    if st.workers[w].Busy? {
      RoomForResults(batches, st, w);
      e := Finish(w);
    } else if st.fed < |batches| {
      e := Hand(w);
    } else if !st.jobsClosed {
      e := CloseJobs;
    } else {
      e := Exit(w);
    }
  }

  lemma {:induction false} EveryoneLeft(batches: seq<Batch>, st: State) returns (e: Event)
    requires ClosedInOrder(batches, st) && st.buffer == [] && !st.returned && AllExited(st.workers)
    requires st.workers == [] ==> batches == [] && st.fed == 0
    ensures Enabled(batches, st, e)
  {
    if st.workers != [] {
      assert st.workers[0].Exited?;
    }
    e := if st.resultsClosed then Return else if st.jobsClosed then CloseResults else CloseJobs;
  }

  /** A wave with at least one worker, or without batches, always has a step to take until it
      returns. */
  lemma {:induction false} NeverStuck(batches: seq<Batch>, parallel: int, es: seq<Event>) returns (e: Event)
    requires Legal(batches, parallel, es) && (parallel >= 1 || batches == [])
    requires !After(batches, parallel, es).returned
    ensures Enabled(batches, After(batches, parallel, es), e)
  {
    AlwaysKept(batches, parallel, es);
    AlwaysConserved(Each(), batches, parallel, es);
    var st := After(batches, parallel, es);
    if st.buffer != [] {
      e := Collect;
    } else if AllExited(st.workers) {
      e := EveryoneLeft(batches, st);
    } else {
      var w: nat :| w < |st.workers| && !st.workers[w].Exited?;
      e := WorkerCanMove(batches, st, w);
    }
  }

  /** Without a worker the first batch is never taken: the wave stands still from the start. */
  lemma {:induction false} NoWorkersNoProgress(batches: seq<Batch>, parallel: int, e: Event)
    requires parallel < 1 && batches != []
    ensures !Begin(batches, parallel).returned && !Enabled(batches, Begin(batches, parallel), e)
  {
  }

  /** What is left to do. */
  function Rank(batches: seq<Batch>, st: State): int {
    3 * (|batches| - st.fed) + TotalWork(st.workers) + |st.buffer|
    + (if st.jobsClosed then 0 else 1) + (if st.resultsClosed then 0 else 1) + (if st.returned then 0 else 1)
  }

  lemma {:induction false} RankFalls(batches: seq<Batch>, st: State, e: Event)
    requires Enabled(batches, st, e)
    ensures Rank(batches, Apply(batches, st, e)) < Rank(batches, st)
  {
    match e {
      case Hand(w) => WorkChanges(st.workers, w, Busy(batches[st.fed]));
      case Finish(w) => WorkChanges(st.workers, w, Idle);
      case Exit(w) => WorkChanges(st.workers, w, Exited);
      case _ =>
    }
  }

  /** Every run of a wave ends, in about three steps a batch. */
  lemma {:induction false} RunsAreBounded(batches: seq<Batch>, parallel: int, es: seq<Event>)
    requires Legal(batches, parallel, es)
    ensures |es| + Rank(batches, After(batches, parallel, es)) <= 3 * |batches| + Max(0, Crew(batches, parallel)) + 3
    ensures |es| <= 3 * |batches| + Max(0, Crew(batches, parallel)) + 3
  {
    if es == [] {
      CrewWork(Begin(batches, parallel).workers);
    } else {
      RunsAreBounded(batches, parallel, Front(es));
      RankFalls(batches, After(batches, parallel, Front(es)), Last(es));
    }
    AlwaysConserved(Each(), batches, parallel, es);
  }

  // ---------- The order of results ----------

  /** The batches that workers finish in a run, in that order. */
  function Finished(batches: seq<Batch>, parallel: int, es: seq<Event>): seq<Batch>
    requires Legal(batches, parallel, es)
  {
    if es == [] then []
    else
      Finished(batches, parallel, Front(es)) + FinishedBy(After(batches, parallel, Front(es)), Last(es))
  }

  function FinishedBy(st: State, e: Event): seq<Batch>
    requires e.Finish? ==> e.worker < |st.workers| && st.workers[e.worker].Busy?
  {
    if e.Finish? then [st.workers[e.worker].batch] else []
  }

  /** Results are collected in the order in which they are finished. */
  lemma {:induction false} CollectedInOrder(batches: seq<Batch>, parallel: int, es: seq<Event>)
    requires Legal(batches, parallel, es)
    ensures var st := After(batches, parallel, es);
            st.collected + st.buffer == Finished(batches, parallel, es)
  {
    if es != [] {
      CollectedInOrder(batches, parallel, Front(es));
      CollectedStep(batches, After(batches, parallel, Front(es)), Last(es));
    }
  }

  lemma {:induction false} CollectedStep(batches: seq<Batch>, st: State, e: Event)
    requires Enabled(batches, st, e)
    ensures var next := Apply(batches, st, e);
            next.collected + next.buffer == st.collected + st.buffer + FinishedBy(st, e)
  {
    if e.Finish? {
      Assoc(st.collected, st.buffer, [st.workers[e.worker].batch]);
    } else if e.Collect? {
      assert st.buffer == [st.buffer[0]] + st.buffer[1..];
      Assoc(st.collected, [st.buffer[0]], st.buffer[1..]);
    }
  }
}
