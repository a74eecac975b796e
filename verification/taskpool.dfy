/** The worker pool of a task group: the thread that runs the group spawns workers, a feeder
    and a waiter, and then waits for them or for a cancellation.  `jobs` is unbuffered, so a
    task passes from the feeder to a worker in one step; `done` is only ever closed.

    Close may refuse any spawn, and once it refuses one it refuses every later one; the
    group's context may be cancelled at any step. */
module TaskPool {
  import opened Common

  datatype Outcome = Pending | Completed | Failed | Dropped

  datatype Worker =
    | Unborn
    | Waiting            // receiving from jobs
    | Holding(task: nat) // received, has not looked at the context yet
    | Running(task: nat)
    | Over               // returned, or refused: its wg.Done has run
  {
    predicate Has(k: nat) {
      (Holding? && task == k) || (Running? && task == k)
    }
    predicate Alive() {
      !Unborn? && !Over?
    }
  }

  datatype Feeder = NoFeeder | Offering(next: nat) | Fed(upTo: nat)
  datatype Waiter = NoWaiter | Blocked | Closing | Gone
  datatype Main =
    | Spawning(next: nat) | SpawnsFeeder | SpawnsWaiter
    | Selecting | Checking | MarkedCompleted | Interrupted

  datatype Pool = Pool(
    main: Main,
    workers: seq<Worker>,
    feeder: Feeder,
    waiter: Waiter,
    wg: int,
    jobsClosed: nat,         // how often jobs has been closed
    doneClosed: nat,         // how often done has been closed
    cancelled: bool,
    shut: bool,              // Close has marked the manager
    refused: bool,           // a spawn of this group was refused
    outcome: seq<Outcome>,   // per pending task
    claims: seq<nat>)        // how often each pending task was handed to a worker
  {
    /** How many tasks have left the feeder. */
    function Passed(): nat {
      match feeder
      case NoFeeder => 0
      case Offering(k) => k
      case Fed(k) => k
    }
  }

  datatype Event =
    | Cancel | Shut
    | SpawnWorker | SpawnFeeder | SpawnWaiter
    | HandOff(w: nat)
    | FeederQuits                              // it saw the cancellation
    | FeederEnds                               // every task is handed out
    | WorkerEnds(w: nat)                       // jobs is closed
    | WorkerLooks(w: nat)                      // the context check before the task
    | TaskEnds(w: nat, outcome: Outcome)
    | WaiterWakes | WaiterCloses
    | MainSeesCancel | MainSeesDone | MainChecks

  predicate Enabled(p: Pool, e: Event) {
    match e
    case Cancel => !p.cancelled
    case Shut => !p.shut
    case SpawnWorker => p.main.Spawning? && p.main.next < |p.workers|
    case SpawnFeeder => p.main.SpawnsFeeder?
    case SpawnWaiter => p.main.SpawnsWaiter?
    case HandOff(w) => p.feeder.Offering? && p.feeder.next < |p.outcome| == |p.claims|
                       && w < |p.workers| && p.workers[w].Waiting?
    case FeederQuits => p.feeder.Offering? && p.feeder.next < |p.outcome| && p.cancelled
    case FeederEnds => p.feeder.Offering? && p.feeder.next == |p.outcome|
    case WorkerEnds(w) => w < |p.workers| && p.workers[w].Waiting? && p.jobsClosed > 0
    case WorkerLooks(w) => w < |p.workers| && p.workers[w].Holding? && p.workers[w].task < |p.outcome|
    case TaskEnds(w, o) => w < |p.workers| && p.workers[w].Running? && p.workers[w].task < |p.outcome|
                           && (o.Completed? || o.Failed? || (o.Dropped? && p.cancelled))
    case WaiterWakes => p.waiter.Blocked? && p.wg == 0
    case WaiterCloses => p.waiter.Closing?
    case MainSeesCancel => p.main.Selecting? && p.cancelled
    case MainSeesDone => p.main.Selecting? && p.doneClosed > 0
    case MainChecks => p.main.Checking?
  }

  function Apply(p: Pool, e: Event): Pool
    requires Enabled(p, e)
  {
    match e
    case Cancel => p.(cancelled := true)
    case Shut => p.(shut := true)
    case SpawnWorker =>
      var i := p.main.next;
      var next := if i + 1 == |p.workers| then SpawnsFeeder else Spawning(i + 1);
      if p.shut then p.(main := next, workers := p.workers[i := Over], refused := true)  // wg up and down
      else p.(main := next, workers := p.workers[i := Waiting], wg := p.wg + 1)
    case SpawnFeeder =>
      if p.shut then p.(main := SpawnsWaiter, feeder := Fed(0), jobsClosed := p.jobsClosed + 1, refused := true)
      else p.(main := SpawnsWaiter, feeder := Offering(0))
    case SpawnWaiter =>
      if p.shut then p.(main := Selecting, waiter := Gone, doneClosed := p.doneClosed + 1, refused := true)
      else p.(main := Selecting, waiter := Blocked)
    case HandOff(w) =>
      var k := p.feeder.next;
      p.(workers := p.workers[w := Holding(k)], feeder := Offering(k + 1), claims := p.claims[k := p.claims[k] + 1])
    case FeederQuits => p.(feeder := Fed(p.feeder.next), jobsClosed := p.jobsClosed + 1)
    case FeederEnds => p.(feeder := Fed(p.feeder.next), jobsClosed := p.jobsClosed + 1)
    case WorkerEnds(w) => p.(workers := p.workers[w := Over], wg := p.wg - 1)
    case WorkerLooks(w) =>
      var k := p.workers[w].task;
      if p.cancelled then p.(workers := p.workers[w := Over], wg := p.wg - 1, outcome := p.outcome[k := Dropped])
      else p.(workers := p.workers[w := Running(k)])
    case TaskEnds(w, o) =>
      p.(workers := p.workers[w := Waiting], outcome := p.outcome[p.workers[w].task := o])
    case WaiterWakes => p.(waiter := Closing)
    case WaiterCloses => p.(waiter := Gone, doneClosed := p.doneClosed + 1)
    case MainSeesCancel => p.(main := Interrupted)
    case MainSeesDone => p.(main := Checking)
    case MainChecks => p.(main := if p.cancelled then Interrupted else MarkedCompleted)
  }

  ghost predicate Legal(p: Pool, es: seq<Event>)
    decreases |es|, 0
  {
    es != [] ==> Legal(p, Front(es)) && Enabled(RunAll(p, Front(es)), Last(es))
  }

  ghost function RunAll(p: Pool, es: seq<Event>): Pool
    requires Legal(p, es)
    decreases |es|, 1
  {
    if es == [] then p else Apply(RunAll(p, Front(es)), Last(es))
  }

  // ---------- The start ----------

  /** Constrains a requested worker count.  The result is 1..8: a request for one worker is
      granted, although the comment in the source promises at least two. */
  function ClampWorkerCount(requested: int): (n: nat)
    ensures 1 <= n <= 8
    ensures 1 <= requested <= 8 ==> n == requested
    ensures requested > 8 ==> n == 8
    ensures requested <= 0 ==> n == 2
  {
    if requested <= 0 then 2 else if requested > 8 then 8 else requested
  }

  /** How many workers a group with this many pending tasks gets. */
  function Crew(workerCount: nat, tasks: nat): (n: nat)
    requires workerCount >= 1
    ensures n <= tasks && n <= workerCount && (n == tasks || n == workerCount)
  {
    if workerCount > tasks then tasks else workerCount
  }

  /** A group about to run `tasks` pending tasks.  With none, the pool is skipped. */
  function Begin(workerCount: nat, tasks: nat): Pool
    requires workerCount >= 1
  {
    if tasks == 0 then
      Pool(Checking, [], Fed(0), Gone, 0, 1, 1, false, false, false, [], [])
    else
      Pool(Spawning(0), seq(Crew(workerCount, tasks), _ => Unborn), NoFeeder, NoWaiter, 0, 0, 0, false, false, false,
           seq(tasks, _ => Pending), seq(tasks, _ => 0))
  }

  // ---------- What every step keeps ----------

  function CountAlive(workers: seq<Worker>): nat {
    if workers == [] then 0
    else CountAlive(workers[..|workers| - 1]) + (if workers[|workers| - 1].Alive() then 1 else 0)
  }

  lemma {:induction false} CountUpdate(workers: seq<Worker>, i: nat, w: Worker)
    requires i < |workers|
    ensures CountAlive(workers[i := w])
         == CountAlive(workers) - (if workers[i].Alive() then 1 else 0) + (if w.Alive() then 1 else 0)
  {
    var n := |workers| - 1;
    if i < n {
      CountUpdate(workers[..n], i, w);
      assert workers[i := w][..n] == workers[..n][i := w];
    } else {
      assert workers[i := w][..n] == workers[..n];
    }
  }

  lemma {:induction false} NoneAlive(workers: seq<Worker>)
    ensures CountAlive(workers) == 0 <==> forall i | 0 <= i < |workers| :: !workers[i].Alive()
  {
    if workers != [] {
      NoneAlive(workers[..|workers| - 1]);
    }
  }

  /** Who exists at which point of the spawning, what has been closed, and the WaitGroup. */
  ghost predicate Staged(p: Pool) {
    && |p.claims| == |p.outcome| && (p.outcome != [] ==> p.workers != [])
    && (p.main.Spawning? ==> p.main.next < |p.workers|)
    && (forall i | 0 <= i < |p.workers| :: p.workers[i].Unborn? <==> p.main.Spawning? && i >= p.main.next)
    && (p.feeder.NoFeeder? <==> p.main.Spawning? || p.main.SpawnsFeeder?)
    && (p.waiter.NoWaiter? <==> p.main.Spawning? || p.main.SpawnsFeeder? || p.main.SpawnsWaiter?)
    && p.jobsClosed == (if p.feeder.Fed? then 1 else 0)
    && p.doneClosed == (if p.waiter.Gone? then 1 else 0)
    && p.wg == CountAlive(p.workers)
    && (p.main.Checking? || p.main.MarkedCompleted? ==> p.waiter.Gone?)
  }

  /** Every pending task is in exactly one place: still with the feeder, held by exactly one
      worker, or processed. */
  ghost predicate Placed(p: Pool) {
    && p.Passed() <= |p.outcome|
    && (forall i | 0 <= i < |p.workers| && (p.workers[i].Holding? || p.workers[i].Running?) ::
          p.workers[i].task < p.Passed() && p.workers[i].task < |p.outcome| && p.outcome[p.workers[i].task].Pending?)
    && (forall i, j | 0 <= i < j < |p.workers| && (p.workers[i].Holding? || p.workers[i].Running?) ::
          !p.workers[j].Has(p.workers[i].task))
    && (forall k | 0 <= k < p.Passed() :: p.outcome[k].Pending? ==> HeldBySome(p, k))
    && (forall k | p.Passed() <= k < |p.outcome| :: p.outcome[k].Pending?)
    && |p.claims| == |p.outcome|
    && (forall k | 0 <= k < |p.claims| :: p.claims[k] == if k < p.Passed() then 1 else 0)
  }

  ghost predicate HeldBySome(p: Pool, k: nat) {
    exists i :: 0 <= i < |p.workers| && p.workers[i].Has(k)
  }

  /** What no cancellation and no refusal mean. */
  ghost predicate Undisturbed(p: Pool) {
    && (p.refused ==> p.shut)
    && (p.waiter.Blocked? || p.waiter.Closing? ==> !p.refused)
    && (p.feeder.Offering? && p.refused ==> p.waiter.Gone?)
    && (!p.cancelled ==> forall k | 0 <= k < |p.outcome| :: !p.outcome[k].Dropped?)
    && (!p.cancelled && p.feeder.Fed? && p.feeder.upTo < |p.outcome| ==> p.refused)
    && (!p.cancelled && !p.feeder.Fed? ==>
          forall i | 0 <= i < |p.workers| && p.workers[i].Over? :: p.refused && !p.feeder.Offering?)
    && (!p.refused && (p.waiter.Closing? || p.waiter.Gone?) ==> CountAlive(p.workers) == 0)
    && (p.main.Interrupted? ==> p.cancelled)
  }

  /** A group marked completed, none of whose spawns was refused, has finished its tasks. */
  ghost predicate Finished(p: Pool) {
    p.main.MarkedCompleted? && !p.refused ==>
      (forall i | 0 <= i < |p.workers| :: p.workers[i].Over?)
      && (forall k | 0 <= k < |p.outcome| :: p.outcome[k].Completed? || p.outcome[k].Failed?)
  }

  ghost predicate Good(p: Pool) {
    Staged(p) && Placed(p) && Undisturbed(p) && Finished(p)
  }

  lemma {:induction false} BeginsGood(workerCount: nat, tasks: nat)
    requires workerCount >= 1
    ensures Good(Begin(workerCount, tasks))
  {
    var p := Begin(workerCount, tasks);
    NoneAlive(p.workers);
  }

  lemma {:induction false} StagedWorker(p: Pool, e: Event)
    requires Staged(p) && Enabled(p, e) && (e.HandOff? || e.WorkerEnds? || e.WorkerLooks? || e.TaskEnds?)
    ensures Staged(Apply(p, e))
  {
    CountUpdate(p.workers, e.w, Apply(p, e).workers[e.w]);
  }

  lemma {:induction false} StagedStep(p: Pool, e: Event)
    requires Staged(p) && Enabled(p, e)
    ensures Staged(Apply(p, e))
  {
    if e.HandOff? || e.WorkerEnds? || e.WorkerLooks? || e.TaskEnds? {
      StagedWorker(p, e);
    } else if e.SpawnWorker? {
      StagedSpawn(p);
    } else {
      StagedOther(p, e);
    }
  }

  lemma {:induction false} StagedSpawn(p: Pool)
    requires Staged(p) && Enabled(p, SpawnWorker)
    ensures Staged(Apply(p, SpawnWorker))
  {
    CountUpdate(p.workers, p.main.next, if p.shut then Over else Waiting);
  }

  lemma {:induction false} StagedOther(p: Pool, e: Event)
    requires Staged(p) && Enabled(p, e)
    requires !e.HandOff? && !e.WorkerEnds? && !e.WorkerLooks? && !e.TaskEnds? && !e.SpawnWorker?
    ensures Staged(Apply(p, e))
  {
    assert Apply(p, e).workers == p.workers;
  }

  lemma {:induction false} PlacedHandOff(p: Pool, w: nat)
    requires Staged(p) && Placed(p) && Enabled(p, HandOff(w))
    ensures Placed(Apply(p, HandOff(w)))
  {
    var q := Apply(p, HandOff(w));
    forall k | 0 <= k < q.Passed() && q.outcome[k].Pending? ensures HeldBySome(q, k) {
      if k == p.feeder.next {
        assert q.workers[w].Has(k);
      } else {
        var i :| 0 <= i < |p.workers| && p.workers[i].Has(k);
        assert q.workers[i].Has(k);
      }
    }
  }

  /** A worker goes from `before` to `after` without taking a new task; the task it lets go
      of, if any, has its outcome. */
  lemma {:induction false} PlacedWorker(p: Pool, w: nat, after: Worker, outcome: seq<Outcome>, wg: int)
    requires Placed(p) && w < |p.workers| && |outcome| == |p.outcome|
    requires p.workers[w].Holding? || p.workers[w].Running? ==> p.workers[w].task < |p.outcome|
    requires forall k | 0 <= k < |outcome| && !p.workers[w].Has(k) :: outcome[k] == p.outcome[k]
    requires !after.Holding?
    requires forall k | 0 <= k < |outcome| && p.workers[w].Has(k) :: after.Has(k) <==> outcome[k].Pending?
    requires after.Running? ==> p.workers[w].Has(after.task)
    ensures Placed(p.(workers := p.workers[w := after], outcome := outcome, wg := wg))
  {
    var q := p.(workers := p.workers[w := after], outcome := outcome, wg := wg);
    forall k | 0 <= k < q.Passed() && q.outcome[k].Pending? ensures HeldBySome(q, k) {
      if p.workers[w].Has(k) {
        assert q.workers[w].Has(k);
      } else {
        var i :| 0 <= i < |p.workers| && p.workers[i].Has(k);
        assert q.workers[i].Has(k);
      }
    }
    forall i | 0 <= i < |q.workers| && (q.workers[i].Holding? || q.workers[i].Running?)
      ensures q.workers[i].task < q.Passed() && q.workers[i].task < |q.outcome| && q.outcome[q.workers[i].task].Pending?
    {
      assert p.workers[i].Has(q.workers[i].task);
      if i != w {
        assert !p.workers[w].Has(q.workers[i].task);
      }
    }
  }

  lemma {:induction false} PlacedAtWork(p: Pool, e: Event)
    requires Placed(p) && Enabled(p, e) && (e.WorkerEnds? || e.WorkerLooks? || e.TaskEnds?)
    ensures Placed(Apply(p, e))
  {
    var q := Apply(p, e);
    PlacedWorker(p, e.w, q.workers[e.w], q.outcome, q.wg);
  }

  lemma {:induction false} PlacedStep(p: Pool, e: Event)
    requires Good(p) && Enabled(p, e)
    ensures Placed(Apply(p, e))
  {
    if e.HandOff? {
      PlacedHandOff(p, e.w);
    } else if e.WorkerEnds? || e.WorkerLooks? || e.TaskEnds? {
      PlacedAtWork(p, e);
    } else {
      PlacedOther(p, e);
    }
  }

  lemma {:induction false} PlacedOther(p: Pool, e: Event)
    requires Staged(p) && Placed(p) && Enabled(p, e)
    requires !e.HandOff? && !e.WorkerEnds? && !e.WorkerLooks? && !e.TaskEnds?
    ensures Placed(Apply(p, e))
  {
    PlacedStill(p, Apply(p, e), if e.SpawnWorker? then p.main.next else 0);
  }

  /** Nobody takes a task or lets one go: at most one worker changes, between two states without
      a task. */
  lemma {:induction false} PlacedStill(p: Pool, q: Pool, w: nat)
    requires Placed(p) && q.outcome == p.outcome && q.claims == p.claims && q.Passed() == p.Passed()
    requires q.workers == p.workers
             || (w < |p.workers| == |q.workers| && q.workers == p.workers[w := q.workers[w]]
                 && !p.workers[w].Holding? && !p.workers[w].Running?
                 && !q.workers[w].Holding? && !q.workers[w].Running?)
    ensures Placed(q)
  {
    forall k | 0 <= k < q.Passed() && q.outcome[k].Pending? ensures HeldBySome(q, k) {
      assert HeldBySome(p, k);
      var i :| 0 <= i < |p.workers| && p.workers[i].Has(k);
      assert q.workers[i].Has(k);
    }
  }

  lemma {:induction false} UndisturbedWorker(p: Pool, e: Event)
    requires Staged(p) && Undisturbed(p) && Enabled(p, e)
    requires e.HandOff? || e.WorkerEnds? || e.WorkerLooks? || e.TaskEnds?
    ensures Undisturbed(Apply(p, e))
  {
    NoneAlive(p.workers);
  }

  lemma {:induction false} UndisturbedStep(p: Pool, e: Event)
    requires Staged(p) && Undisturbed(p) && Enabled(p, e)
    ensures Undisturbed(Apply(p, e))
  {
    if e.HandOff? || e.WorkerEnds? || e.WorkerLooks? || e.TaskEnds? {
      UndisturbedWorker(p, e);
    }
  }

  /** The last context check still sees any cancellation that made a worker leave early. */
  lemma {:induction false} FinishedStep(p: Pool, e: Event)
    requires Good(p) && Enabled(p, e)
    ensures Finished(Apply(p, e))
  {
    NoneAlive(p.workers);
    if e.MainChecks? && !p.cancelled && !p.refused {
      assert forall i | 0 <= i < |p.workers| :: p.workers[i].Over?;
      if p.outcome != [] {
        assert p.workers[0].Over?;
        assert p.Passed() == |p.outcome|;
        forall k | 0 <= k < |p.outcome| ensures p.outcome[k].Completed? || p.outcome[k].Failed? {
          assert p.outcome[k].Pending? ==> HeldBySome(p, k);
        }
      }
    }
  }

  lemma {:induction false} GoodStep(p: Pool, e: Event)
    requires Good(p) && Enabled(p, e)
    ensures Good(Apply(p, e))
  {
    StagedStep(p, e);
    PlacedStep(p, e);
    UndisturbedStep(p, e);
    FinishedStep(p, e);
  }

  lemma {:induction false} AlwaysGood(p: Pool, es: seq<Event>)
    requires Good(p) && Legal(p, es)
    ensures Good(RunAll(p, es))
  {
    if es != [] {
      AlwaysGood(p, Front(es));
      GoodStep(RunAll(p, Front(es)), Last(es));
    }
  }

  // ---------- Safety ----------

  /** Where a task is. */
  ghost predicate Unfed(p: Pool, k: nat) {
    p.Passed() <= k
  }

  ghost predicate Held(p: Pool, k: nat) {
    HeldBySome(p, k)
  }

  ghost predicate Processed(p: Pool, k: nat)
    requires k < |p.outcome|
  {
    !p.outcome[k].Pending?
  }

  /** In every reachable state of a run, with cancellation and Close at any point, each
      pending task has been handed out at most once, and is in exactly one of three places;
      while held, it is held by one worker only. */
  lemma {:induction false} EachTaskInOnePlace(workerCount: nat, tasks: nat, es: seq<Event>, k: nat)
    requires workerCount >= 1 && Legal(Begin(workerCount, tasks), es) && k < tasks
    ensures var p := RunAll(Begin(workerCount, tasks), es);
            && |p.outcome| == |p.claims| == tasks
            && p.claims[k] <= 1 && (p.claims[k] == 1 <==> !Unfed(p, k))
            && (Unfed(p, k) || Held(p, k) || Processed(p, k))
            && !(Unfed(p, k) && Held(p, k)) && !(Unfed(p, k) && Processed(p, k)) && !(Held(p, k) && Processed(p, k))
            && forall i, j | 0 <= i < |p.workers| && 0 <= j < |p.workers| && p.workers[i].Has(k)
                && p.workers[j].Has(k) :: i == j
  {
    BeginsGood(workerCount, tasks);
    AlwaysGood(Begin(workerCount, tasks), es);
    SizesStay(Begin(workerCount, tasks), es);
  }

  lemma {:induction false} FixedStep(p: Pool, e: Event)
    requires Enabled(p, e)
    ensures |Apply(p, e).outcome| == |p.outcome|
    ensures Staged(p) && !p.waiter.NoWaiter? ==> !Apply(p, e).waiter.NoWaiter? && Apply(p, e).refused == p.refused
  {
  }

  lemma {:induction false} SizesStay(p: Pool, es: seq<Event>)
    requires Legal(p, es)
    ensures |RunAll(p, es).outcome| == |p.outcome|
  {
    if es != [] {
      SizesStay(p, Front(es));
      FixedStep(RunAll(p, Front(es)), Last(es));
    }
  }

  /** A run none of whose spawns Close refused marks its group completed only when every
      task has completed or failed, and no worker is left. */
  lemma {:induction false} CompletedMeansDone(workerCount: nat, tasks: nat, es: seq<Event>)
    requires workerCount >= 1 && Legal(Begin(workerCount, tasks), es)
    requires var p := RunAll(Begin(workerCount, tasks), es); p.main.MarkedCompleted? && !p.refused
    ensures var p := RunAll(Begin(workerCount, tasks), es);
            (forall k | 0 <= k < |p.outcome| :: p.outcome[k].Completed? || p.outcome[k].Failed?)
            && (forall i | 0 <= i < |p.workers| :: p.workers[i].Over?)
  {
    BeginsGood(workerCount, tasks);
    AlwaysGood(Begin(workerCount, tasks), es);
  }

  /** Every pending task of the run has completed or failed. */
  predicate AllSettled(p: Pool) {
    forall k | 0 <= k < |p.outcome| :: p.outcome[k].Completed? || p.outcome[k].Failed?
  }

  /** However the run goes on, it marks the group completed only with every task settled. */
  ghost predicate CompletesSoundly(p: Pool) {
    forall es | Legal(p, es) :: RunAll(p, es).main.MarkedCompleted? ==> AllSettled(RunAll(p, es))
  }

  lemma {:induction false} SettledStep(p: Pool, e: Event)
    requires Good(p) && AllSettled(p) && Enabled(p, e)
    ensures AllSettled(Apply(p, e))
  {
  }

  lemma {:induction false} SettledStays(p: Pool, es: seq<Event>)
    requires Good(p) && AllSettled(p) && Legal(p, es)
    ensures AllSettled(RunAll(p, es))
  {
    if es != [] {
      SettledStays(p, Front(es));
      AlwaysGood(p, Front(es));
      SettledStep(RunAll(p, Front(es)), Last(es));
    }
  }

  /** What a waiter refused by Close does: its `done` lets the group be marked completed at
      once, whatever its tasks have come to. */
  lemma {:induction false} RefusedWaiter(p: Pool)
    requires Good(p) && p.main.SpawnsWaiter? && !p.cancelled && p.shut
    ensures var es := [MainSeesDone, MainChecks];
            && Legal(Apply(p, SpawnWaiter), es)
            && RunAll(Apply(p, SpawnWaiter), es).main.MarkedCompleted?
            && RunAll(Apply(p, SpawnWaiter), es).outcome == p.outcome
  {
    var s, one, two := Apply(p, SpawnWaiter), [MainSeesDone], [MainSeesDone, MainChecks];
    assert Front(one) == [] && Front(two) == one;
    assert Legal(s, []) && Legal(s, one) && RunAll(s, one) == Apply(s, MainSeesDone);
    assert Legal(s, two);
  }

  /** What decides, when the waiter is spawned in a group not cancelled yet: the group is marked
      completed only with every task settled exactly when Close has not marked the manager by
      then, or every task is settled already. */
  lemma {:induction false} CompletedMeansDoneIff(p: Pool)
    requires Good(p) && p.main.SpawnsWaiter? && !p.cancelled
    ensures CompletesSoundly(Apply(p, SpawnWaiter)) <==> !p.shut || AllSettled(p)
  {
    var s := Apply(p, SpawnWaiter);
    GoodStep(p, SpawnWaiter);
    if p.shut {
      RefusedWaiter(p);
      var es := [MainSeesDone, MainChecks];
      assert AllSettled(RunAll(s, es)) <==> AllSettled(p);
      if AllSettled(p) {
        forall es | Legal(s, es) ensures AllSettled(RunAll(s, es)) {
          SettledStays(s, es);
        }
      }
    } else {
      forall es | Legal(s, es) ensures RunAll(s, es).main.MarkedCompleted? ==> AllSettled(RunAll(s, es)) {
        AlwaysGood(s, es);
        AllSpawned(s, es);
      }
    }
  }

  /** A run that marks its group completed with its only task still pending: Close comes after
      the worker and the feeder are up and before the waiter. */
  lemma {:induction false} CompletedWhilePending()
    ensures var es := [SpawnWorker, SpawnFeeder, Shut, SpawnWaiter, MainSeesDone, MainChecks];
            && Legal(Begin(1, 1), es)
            && RunAll(Begin(1, 1), es).main.MarkedCompleted?
            && RunAll(Begin(1, 1), es).outcome == [Pending]
  {
    var b := Begin(1, 1);
    var start, rest := [SpawnWorker, SpawnFeeder, Shut], [SpawnWaiter, MainSeesDone, MainChecks];
    ShutBeforeWaiter();
    RefusedAtOnce(RunAll(b, start));
    Join(b, start, rest);
    assert start + rest == [SpawnWorker, SpawnFeeder, Shut, SpawnWaiter, MainSeesDone, MainChecks];
  }

  lemma {:induction false} ShutBeforeWaiter()
    ensures var es := [SpawnWorker, SpawnFeeder, Shut];
            && Legal(Begin(1, 1), es)
            && var p := RunAll(Begin(1, 1), es);
               p.main.SpawnsWaiter? && p.shut && !p.cancelled && p.doneClosed == 0 && p.outcome == [Pending]
  {
    var b := Begin(1, 1);
    var e1, e2, e3 := [SpawnWorker], [SpawnWorker, SpawnFeeder], [SpawnWorker, SpawnFeeder, Shut];
    assert Front(e1) == [] && Front(e2) == e1 && Front(e3) == e2;
    assert Legal(b, []) && Legal(b, e1) && Legal(b, e2) && Legal(b, e3);
  }

  lemma {:induction false} RefusedAtOnce(p: Pool)
    requires p.main.SpawnsWaiter? && !p.cancelled && p.shut && p.doneClosed == 0
    ensures var es := [SpawnWaiter, MainSeesDone, MainChecks];
            Legal(p, es) && RunAll(p, es).main.MarkedCompleted? && RunAll(p, es).outcome == p.outcome
  {
    var e1, e2, e3 := [SpawnWaiter], [SpawnWaiter, MainSeesDone], [SpawnWaiter, MainSeesDone, MainChecks];
    assert Front(e1) == [] && Front(e2) == e1 && Front(e3) == e2;
    assert Legal(p, []) && Legal(p, e1) && Legal(p, e2) && Legal(p, e3);
  }

  lemma {:induction false} Join(p: Pool, es: seq<Event>, fs: seq<Event>)
    requires Legal(p, es) && Legal(RunAll(p, es), fs)
    ensures Legal(p, es + fs) && RunAll(p, es + fs) == RunAll(RunAll(p, es), fs)
  {
    if fs == [] {
      assert es + fs == es;
    } else {
      Join(p, es, Front(fs));
      assert Front(es + fs) == es + Front(fs);
    }
  }

  /** Once everyone is spawned, nothing more can be refused. */
  lemma {:induction false} AllSpawned(p: Pool, es: seq<Event>)
    requires Good(p) && !p.waiter.NoWaiter? && Legal(p, es)
    ensures !RunAll(p, es).waiter.NoWaiter? && RunAll(p, es).refused == p.refused
  {
    if es != [] {
      AllSpawned(p, Front(es));
      AlwaysGood(p, Front(es));
      FixedStep(RunAll(p, Front(es)), Last(es));
    }
  }

  // ---------- Progress ----------

  /** The run is over and nobody of it is left. */
  ghost predicate AllOver(p: Pool) {
    && (p.main.MarkedCompleted? || p.main.Interrupted?)
    && p.feeder.Fed? && p.waiter.Gone?
    && forall i | 0 <= i < |p.workers| :: p.workers[i].Over?
  }

  /** Some thread of the run itself can take a step. */
  ghost predicate CanGoOn(p: Pool) {
    exists e: Event :: !e.Cancel? && !e.Shut? && Enabled(p, e)
  }

  /** No reachable state is stuck: until all are gone, some thread of the run can go on,
      without help from a cancellation or from Close. */
  lemma {:induction false} NeverStuck(p: Pool)
    requires Good(p) && !AllOver(p)
    ensures CanGoOn(p)
  {
    NoneAlive(p.workers);
    if p.main.Spawning? {
      assert Enabled(p, SpawnWorker);
    } else if p.main.SpawnsFeeder? {
      assert Enabled(p, SpawnFeeder);
    } else if p.main.SpawnsWaiter? {
      assert Enabled(p, SpawnWaiter);
    } else if w :| 0 <= w < |p.workers| && p.workers[w].Holding? {
      assert Enabled(p, WorkerLooks(w));
    } else if w :| 0 <= w < |p.workers| && p.workers[w].Running? {
      assert Enabled(p, TaskEnds(w, Completed));
    } else if p.feeder.Fed? {
      if w :| 0 <= w < |p.workers| && p.workers[w].Waiting? {
        assert Enabled(p, WorkerEnds(w));
      } else {
        assert forall i | 0 <= i < |p.workers| :: p.workers[i].Over?;
        EndsAreEnabled(p);
      }
    } else {
      FeederGoesOn(p);
    }
  }

  lemma {:induction false} EndsAreEnabled(p: Pool)
    requires Good(p) && !AllOver(p) && p.feeder.Fed?
    requires forall i | 0 <= i < |p.workers| :: p.workers[i].Over?
    requires !p.waiter.NoWaiter?
    ensures CanGoOn(p)
  {
    NoneAlive(p.workers);
    if p.waiter.Blocked? {
      assert Enabled(p, WaiterWakes);
    } else if p.waiter.Closing? {
      assert Enabled(p, WaiterCloses);
    } else if p.main.Selecting? {
      assert Enabled(p, MainSeesDone);
    } else {
      assert Enabled(p, MainChecks);
    }
  }

  /** A feeder with tasks left finds a worker to hand one to, or sees the cancellation. */
  lemma {:induction false} FeederGoesOn(p: Pool)
    requires Good(p) && p.feeder.Offering?
    requires forall i | 0 <= i < |p.workers| :: p.workers[i].Waiting? || p.workers[i].Over?
    ensures CanGoOn(p)
  {
    if p.feeder.next == |p.outcome| {
      assert Enabled(p, FeederEnds);
    } else if p.cancelled {
      assert Enabled(p, FeederQuits);
    } else {
      assert !p.workers[0].Over?;
      assert Enabled(p, HandOff(0));
    }
  }

  function WorkerWeight(w: Worker): nat {
    match w
    case Unborn => 0
    case Waiting => 1
    case Holding(_) => 3
    case Running(_) => 2
    case Over => 0
  }

  function Weights(workers: seq<Worker>): nat {
    if workers == [] then 0 else Weights(workers[..|workers| - 1]) + WorkerWeight(workers[|workers| - 1])
  }

  lemma {:induction false} WeightUpdate(workers: seq<Worker>, i: nat, w: Worker)
    requires i < |workers|
    ensures Weights(workers[i := w]) == Weights(workers) - WorkerWeight(workers[i]) + WorkerWeight(w)
  {
    var n := |workers| - 1;
    if i < n {
      WeightUpdate(workers[..n], i, w);
      assert workers[i := w][..n] == workers[..n][i := w];
    } else {
      assert workers[i := w][..n] == workers[..n];
    }
  }

  function MainWeight(p: Pool): int {
    match p.main
    case Spawning(i) => 2 * (|p.workers| - i) + 4
    case SpawnsFeeder => 4
    case SpawnsWaiter => 3
    case Selecting => 2
    case Checking => 1
    case _ => 0
  }

  /** What is left to happen. */
  function Measure(p: Pool): int {
    MainWeight(p) + Weights(p.workers)
    + (match p.feeder
       case NoFeeder => 3 * |p.outcome| + 2
       case Offering(k) => 3 * (|p.outcome| - k) + 1
       case Fed(_) => 0)
    + (match p.waiter case NoWaiter => 3 case Blocked => 2 case Closing => 1 case Gone => 0)
    + (if p.cancelled then 0 else 1) + (if p.shut then 0 else 1)
  }

  lemma {:induction false} MeasureWorker(p: Pool, e: Event)
    requires Enabled(p, e) && (e.HandOff? || e.WorkerEnds? || e.WorkerLooks? || e.TaskEnds?)
    ensures Measure(Apply(p, e)) < Measure(p)
  {
    var q := Apply(p, e);
    WeightUpdate(p.workers, e.w, q.workers[e.w]);
    assert q.workers == p.workers[e.w := q.workers[e.w]];
    assert |q.workers| == |p.workers| && |q.outcome| == |p.outcome| && MainWeight(q) == MainWeight(p);
    assert e.HandOff? ==> WorkerWeight(q.workers[e.w]) == WorkerWeight(p.workers[e.w]) + 2;
    assert !e.HandOff? ==> WorkerWeight(q.workers[e.w]) < WorkerWeight(p.workers[e.w]) && q.feeder == p.feeder;
  }

  lemma {:induction false} MeasureStep(p: Pool, e: Event)
    requires Staged(p) && Enabled(p, e)
    ensures Measure(Apply(p, e)) < Measure(p)
  {
    if e.HandOff? || e.WorkerEnds? || e.WorkerLooks? || e.TaskEnds? {
      MeasureWorker(p, e);
    } else if e.SpawnWorker? {
      MeasureSpawn(p);
    } else {
      MeasureOther(p, e);
    }
  }

  lemma {:induction false} MeasureSpawn(p: Pool)
    requires Staged(p) && Enabled(p, SpawnWorker)
    ensures Measure(Apply(p, SpawnWorker)) < Measure(p)
  {
    WeightUpdate(p.workers, p.main.next, if p.shut then Over else Waiting);
  }

  lemma {:induction false} MeasureOther(p: Pool, e: Event)
    requires Staged(p) && Enabled(p, e)
    requires !e.HandOff? && !e.WorkerEnds? && !e.WorkerLooks? && !e.TaskEnds? && !e.SpawnWorker?
    ensures Measure(Apply(p, e)) < Measure(p)
  {
    assert Apply(p, e).workers == p.workers;
  }

  lemma {:induction false} MeasureIsNat(p: Pool)
    requires Staged(p) && Placed(p)
    ensures Measure(p) >= 0
  {
  }

  /** Every interleaving is finite, and bounded by what there was to do. */
  lemma {:induction false} RunsAreBounded(p: Pool, es: seq<Event>)
    requires Good(p) && Legal(p, es)
    ensures 0 <= Measure(RunAll(p, es)) && |es| + Measure(RunAll(p, es)) <= Measure(p)
  {
    AlwaysGood(p, es);
    MeasureIsNat(RunAll(p, es));
    if es != [] {
      RunsAreBounded(p, Front(es));
      AlwaysGood(p, Front(es));
      MeasureStep(RunAll(p, Front(es)), Last(es));
    }
  }

  /** And when it is over, both channels have been closed exactly once and every wg.Add has
      had its wg.Done. */
  lemma {:induction false} EndsClean(workerCount: nat, tasks: nat, es: seq<Event>)
    requires workerCount >= 1 && Legal(Begin(workerCount, tasks), es)
    ensures var p := RunAll(Begin(workerCount, tasks), es);
            && p.jobsClosed <= 1 && p.doneClosed <= 1 && p.wg >= 0
            && (AllOver(p) ==> p.jobsClosed == 1 && p.doneClosed == 1 && p.wg == 0)
            && (AllOver(p) && !p.cancelled ==> p.main.MarkedCompleted?)
            && (!AllOver(p) ==> CanGoOn(p))
  {
    BeginsGood(workerCount, tasks);
    AlwaysGood(Begin(workerCount, tasks), es);
    var p := RunAll(Begin(workerCount, tasks), es);
    NoneAlive(p.workers);
    if !AllOver(p) {
      NeverStuck(p);
    }
  }

  // ---------- What the group is told ----------

  predicate NoDisturbance(es: seq<Event>) {
    es != [] ==> NoDisturbance(Front(es)) && !Last(es).Cancel? && !Last(es).Shut?
  }

  lemma {:induction false} StaysUndisturbed(p: Pool, es: seq<Event>)
    requires !p.cancelled && !p.shut && Legal(p, es) && NoDisturbance(es)
    ensures !RunAll(p, es).cancelled && !RunAll(p, es).shut
  {
    if es != [] {
      StaysUndisturbed(p, Front(es));
    }
  }

  /** A run that nobody cancels and Close does not disturb ends with its group marked completed,
      every task completed or failed, and each handed out exactly once. */
  lemma {:induction false} UndisturbedRunCompletes(workerCount: nat, tasks: nat, es: seq<Event>)
    requires workerCount >= 1 && Legal(Begin(workerCount, tasks), es) && NoDisturbance(es)
    requires AllOver(RunAll(Begin(workerCount, tasks), es))
    ensures var p := RunAll(Begin(workerCount, tasks), es);
            && p.main.MarkedCompleted? && |p.outcome| == |p.claims| == tasks && AllSettled(p)
            && forall k | 0 <= k < tasks :: p.claims[k] == 1
  {
    var b := Begin(workerCount, tasks);
    BeginsGood(workerCount, tasks);
    AlwaysGood(b, es);
    SizesStay(b, es);
    StaysUndisturbed(b, es);
    CompletedMeansDone(workerCount, tasks, es);
  }

  /** How a step ends a task: as its worker reports, or dropped by a worker that sees the
      cancellation first. */
  ghost function EndingBy(p: Pool, e: Event, k: nat): seq<Outcome>
    requires Enabled(p, e)
  {
    match e
    case TaskEnds(w, o) => if p.workers[w].task == k then [o] else []
    case WorkerLooks(w) => if p.workers[w].task == k && p.cancelled then [Dropped] else []
    case _ => []
  }

  /** How a task has ended in a run, each time it has. */
  ghost function Endings(p: Pool, es: seq<Event>, k: nat): seq<Outcome>
    requires Legal(p, es)
  {
    if es == [] then [] else Endings(p, Front(es), k) + EndingBy(RunAll(p, Front(es)), Last(es), k)
  }

  lemma {:induction false} EndingStep(p: Pool, e: Event, k: nat)
    requires Good(p) && Enabled(p, e) && k < |p.outcome|
    ensures k < |Apply(p, e).outcome|
    ensures Apply(p, e).outcome[k] == if EndingBy(p, e, k) == [] then p.outcome[k] else EndingBy(p, e, k)[0]
    ensures EndingBy(p, e, k) != [] ==> p.outcome[k].Pending? && |EndingBy(p, e, k)| == 1
    ensures EndingBy(p, e, k) != [] ==> !EndingBy(p, e, k)[0].Pending?
  {
  }

  /** Every task ends at most once, and what the group records of it is how it ended. */
  lemma {:induction false} EndingIsRecorded(p: Pool, es: seq<Event>, k: nat)
    requires Good(p) && Legal(p, es) && k < |p.outcome| && p.outcome[k].Pending?
    ensures k < |RunAll(p, es).outcome|
    ensures Endings(p, es, k) == if RunAll(p, es).outcome[k].Pending? then [] else [RunAll(p, es).outcome[k]]
  {
    if es != [] {
      EndingIsRecorded(p, Front(es), k);
      AlwaysGood(p, Front(es));
      EndingStep(RunAll(p, Front(es)), Last(es), k);
    }
  }

  lemma {:induction false} CancelledStep(p: Pool, e: Event, i: nat)
    requires Enabled(p, e) && p.cancelled && i < |p.workers|
    ensures Apply(p, e).cancelled && |Apply(p, e).workers| == |p.workers|
    ensures Apply(p, e).workers[i].Running? ==> Apply(p, e).workers[i] == p.workers[i]
  {
  }

  /** Once the group is cancelled no task begins: what a worker runs later it was running then. */
  lemma {:induction false} NoneBeginsOnceCancelled(p: Pool, es: seq<Event>, i: nat)
    requires p.cancelled && Legal(p, es) && i < |p.workers|
    ensures RunAll(p, es).cancelled && |RunAll(p, es).workers| == |p.workers|
    ensures RunAll(p, es).workers[i].Running? ==> RunAll(p, es).workers[i] == p.workers[i]
  {
    if es != [] {
      NoneBeginsOnceCancelled(p, Front(es), i);
      CancelledStep(RunAll(p, Front(es)), Last(es), i);
    }
  }
}
