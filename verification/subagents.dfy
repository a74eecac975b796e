/** The provider calls of sub-agents while the manager closes: runs of task groups, their workers,
    and which of them Close's sweep reaches.

    A run registers the function that cancels its context, spawns workers, a feeder and a waiter,
    and takes its registration back when it leaves.  Close first marks the manager, after which
    nothing is spawned, and then cancels what is registered. */
module SubAgents {
  import opened Common
  import opened Text

  type Key = string       // a session's id, a colon and the group's id
  type Context = nat

  // ---------- Sections ----------

  datatype Registry = Registry(
    cancels: map<Key, Context>,   // taskGroupCancels; its keys are runningTaskGroups
    cancelled: set<Context>,
    begun: nat)                   // contexts made so far; the next one

  function RegisterSection(h: Registry, key: Key): (Registry, bool) {
    if key in h.cancels then (h, false) else (h.(cancels := h.cancels[key := h.begun], begun := h.begun + 1), true)
  }

  function FinishSection(h: Registry, key: Key): Registry {
    h.(cancels := h.cancels - {key})
  }

  /** The registered runs of a session. */
  function RunsOf(h: Registry, session: string): set<Key> {
    set k | k in h.cancels && StartsWith(k, session + ":")
  }

  function StopSection(h: Registry, session: string): Registry {
    h.(cancelled := h.cancelled + set k | k in RunsOf(h, session) :: h.cancels[k])
  }

  function SweepSection(h: Registry): Registry {
    h.(cancelled := h.cancelled + h.cancels.Values)
  }

  // ---------- Threads ----------

  datatype Main = Spawning | SpawnsWaiter | Selecting | Left
  datatype Feeder = NoFeeder | Offering(left: nat) | Shut

  datatype Worker =
    | Receiving   // from jobs
    | Holding     // a task, before the worker looks at the context
    | Looking     // in runAgentTask, before it looks at the context
    | Cleared     // it was not cancelled; about to call the provider
    | InCall
    | Over

  /** One run of a task group; runs are numbered by their contexts. */
  datatype Run = Run(
    key: Key,
    tasks: nat,
    main: Main,
    feeder: Feeder,
    workers: seq<Worker>,
    done: bool,            // `done` is closed
    refused: bool)         // the waiter was refused

  datatype Mgr = Mgr(h: Registry, closed: bool, swept: bool, runs: seq<Run>)

  datatype Event =
    | Register(key: Key, tasks: nat)
    | SpawnWorker(c: nat) | SpawnFeeder(c: nat) | SpawnWaiter(c: nat)
    | WaiterCloses(c: nat) | FeederQuits(c: nat) | Leave(c: nat)
    | Take(c: nat, i: nat) | Look(c: nat, i: nat) | Check(c: nat, i: nat)
    | Begin(c: nat, i: nat) | Return(c: nat, i: nat, again: bool) | Drop(c: nat, i: nat) | WorkerEnds(c: nat, i: nat)
    | Stop(session: string)
    | Mark | Sweep

  predicate At(m: Mgr, c: nat, i: nat, w: Worker) {
    c < |m.runs| && i < |m.runs[c].workers| && m.runs[c].workers[i] == w
  }

  predicate AllOver(workers: seq<Worker>) {
    forall w | w in workers :: w.Over?
  }

  predicate Enabled(m: Mgr, e: Event) {
    match e
    case Register(key, _) => key !in m.h.cancels
    case SpawnWorker(c) => c < |m.runs| && m.runs[c].main.Spawning?
    case SpawnFeeder(c) => c < |m.runs| && m.runs[c].main.Spawning?
    case SpawnWaiter(c) => c < |m.runs| && m.runs[c].main.SpawnsWaiter?
    case WaiterCloses(c) =>
      c < |m.runs| && (m.runs[c].main.Selecting? || m.runs[c].main.Left?) && AllOver(m.runs[c].workers)
    case FeederQuits(c) =>
      c < |m.runs| && m.runs[c].feeder.Offering? && (m.runs[c].feeder.left == 0 || c in m.h.cancelled)
    case Leave(c) =>
      c < |m.runs|
      && if m.runs[c].main.Spawning? then m.runs[c].workers == []  // no pending task, or an error before the pool
         else m.runs[c].main.Selecting? && (m.runs[c].done || c in m.h.cancelled)
    case Take(c, i) => At(m, c, i, Receiving) && m.runs[c].feeder.Offering? && m.runs[c].feeder.left > 0
    case Look(c, i) => At(m, c, i, Holding)
    case Check(c, i) => At(m, c, i, Looking)
    case Begin(c, i) => At(m, c, i, Cleared)
    case Return(c, i, _) => At(m, c, i, InCall)
    case Drop(c, i) => At(m, c, i, Looking)
    case WorkerEnds(c, i) => At(m, c, i, Receiving) && m.runs[c].feeder.Shut?
    case Stop(_) => true
    case Mark => true
    case Sweep => m.closed && !m.swept
  }

  function Put(m: Mgr, c: nat, r: Run): Mgr
    requires c < |m.runs|
  {
    m.(runs := m.runs[c := r])
  }

  function PutWorker(m: Mgr, c: nat, i: nat, w: Worker): Mgr
    requires c < |m.runs| && i < |m.runs[c].workers|
  {
    Put(m, c, m.runs[c].(workers := m.runs[c].workers[i := w]))
  }

  function Apply(m: Mgr, e: Event): Mgr
    requires Enabled(m, e)
  {
    match e
    case Register(key, tasks) =>
      m.(h := RegisterSection(m.h, key).0, runs := m.runs + [Run(key, tasks, Spawning, NoFeeder, [], false, false)])
    case SpawnWorker(c) =>
      if m.closed then m else Put(m, c, m.runs[c].(workers := m.runs[c].workers + [Receiving]))
    case SpawnFeeder(c) =>
      Put(m, c, m.runs[c].(main := SpawnsWaiter, feeder := if m.closed then Shut else Offering(m.runs[c].tasks)))
    case SpawnWaiter(c) =>
      Put(m, c, if m.closed then m.runs[c].(main := Selecting, done := true, refused := true)
                else m.runs[c].(main := Selecting))
    case WaiterCloses(c) => Put(m, c, m.runs[c].(done := true))
    case FeederQuits(c) => Put(m, c, m.runs[c].(feeder := Shut))
    case Leave(c) => Put(m, c, m.runs[c].(main := Left)).(h := FinishSection(m.h, m.runs[c].key))
    case Take(c, i) =>
      var fed := Put(m, c, m.runs[c].(feeder := Offering(m.runs[c].feeder.left - 1)));
      PutWorker(fed, c, i, Holding)
    case Look(c, i) => PutWorker(m, c, i, if c in m.h.cancelled then Over else Looking)
    case Check(c, i) => PutWorker(m, c, i, if c in m.h.cancelled then Receiving else Cleared)
    case Begin(c, i) => PutWorker(m, c, i, InCall)
    case Return(c, i, again) => PutWorker(m, c, i, if again then Looking else Receiving)
    case Drop(c, i) => PutWorker(m, c, i, Receiving)
    case WorkerEnds(c, i) => PutWorker(m, c, i, Over)
    case Stop(session) => m.(h := StopSection(m.h, session))
    case Mark => m.(closed := true)
    case Sweep => m.(h := SweepSection(m.h), swept := true)
  }

  ghost predicate Legal(m: Mgr, es: seq<Event>)
    decreases |es|, 0
  {
    es != [] ==> Legal(m, Front(es)) && Enabled(RunAll(m, Front(es)), Last(es))
  }

  ghost function RunAll(m: Mgr, es: seq<Event>): Mgr
    requires Legal(m, es)
    decreases |es|, 1
  {
    if es == [] then m else Apply(RunAll(m, Front(es)), Last(es))
  }

  /** A manager that has just been made. */
  function NewMgr(): Mgr {
    Mgr(Registry(map[], {}, 0), false, false, [])
  }

  // ---------- What the sweep reaches ----------

  /** A run is registered exactly until it leaves. */
  ghost predicate Registered(m: Mgr) {
    && m.h.begun == |m.runs|
    && (forall c | 0 <= c < |m.runs| && !m.runs[c].main.Left? ::
          m.runs[c].key in m.h.cancels && m.h.cancels[m.runs[c].key] == c)
    && (forall k | k in m.h.cancels ::
          m.h.cancels[k] < |m.runs| && m.runs[m.h.cancels[k]].key == k && !m.runs[m.h.cancels[k]].main.Left?)
  }

  /** A step inside one run that leaves its registration alone. */
  predicate IsInside(e: Event) {
    !e.Register? && !e.Leave? && !e.Stop? && !e.Mark? && !e.Sweep?
  }

  lemma {:induction false} InsideIsLocal(m: Mgr, e: Event)
    requires Enabled(m, e) && IsInside(e)
    ensures var n := Apply(m, e);
            && e.c < |m.runs| && n == m.(runs := m.runs[e.c := n.runs[e.c]])
            && n.runs[e.c].key == m.runs[e.c].key
            && (n.runs[e.c].main.Left? <==> m.runs[e.c].main.Left?)
  {
    if e.SpawnWorker? && m.closed {
      assert m.runs[e.c := m.runs[e.c]] == m.runs;
    } else if e.Take? {
      assert m.runs[e.c := m.runs[e.c]] == m.runs;
    }
  }

  lemma {:induction false} RegisteredStep(m: Mgr, e: Event)
    requires Registered(m) && Enabled(m, e)
    ensures Registered(Apply(m, e))
  {
    if IsInside(e) {
      InsideIsLocal(m, e);
      RegisteredInside(m, e.c, Apply(m, e).runs[e.c]);
    } else if e.Leave? {
      LeaveKeeps(m, e.c);
    }
  }

  lemma {:induction false} RegisteredInside(m: Mgr, c: nat, r: Run)
    requires Registered(m) && c < |m.runs| && r.key == m.runs[c].key && (r.main.Left? <==> m.runs[c].main.Left?)
    ensures Registered(m.(runs := m.runs[c := r]))
  {
  }

  lemma {:induction false} LeaveKeeps(m: Mgr, c: nat)
    requires Registered(m) && Enabled(m, Leave(c))
    ensures Registered(Apply(m, Leave(c)))
  {
  }

  lemma {:induction false} AlwaysRegistered(m: Mgr, es: seq<Event>)
    requires Registered(m) && Legal(m, es)
    ensures Registered(RunAll(m, es))
  {
    if es != [] {
      AlwaysRegistered(m, Front(es));
      RegisteredStep(RunAll(m, Front(es)), Last(es));
    }
  }

  /** The worker can come to call the provider. */
  predicate CanCall(r: Run, i: nat)
    requires i < |r.workers|
  {
    match r.workers[i]
    case Receiving => r.feeder.Offering? && r.feeder.left > 0
    case Over => false
    case _ => true
  }

  predicate AtWork(r: Run) {
    exists i | 0 <= i < |r.workers| :: CanCall(r, i)
  }

  /** A run has left, uncancelled, with workers still at work: nothing can cancel them any more. */
  ghost predicate Orphaned(m: Mgr, c: nat) {
    c < |m.runs| && m.runs[c].main.Left? && c !in m.h.cancelled && AtWork(m.runs[c])
  }

  /** A worker is inside a provider call that has not been cancelled. */
  ghost predicate LiveCall(m: Mgr) {
    exists c: nat, i: nat :: At(m, c, i, InCall) && c !in m.h.cancelled
  }

  // ---------- Silence ----------

  /** Every run that is not cancelled has nobody at work, and nobody will be. */
  ghost predicate Hushed(m: Mgr) {
    m.closed && m.swept && forall c | 0 <= c < |m.runs| && c !in m.h.cancelled :: !AtWork(m.runs[c])
  }

  lemma {:induction false} UncancelledHasLeft(m: Mgr, c: nat)
    requires Registered(m) && c < |m.runs| && c !in SweepSection(m.h).cancelled
    ensures m.runs[c].main.Left?
  {
    var key := m.runs[c].key;
    assert key in m.h.cancels ==> m.h.cancels[key] in m.h.cancels.Values;
  }

  lemma {:induction false} SweepHushes(m: Mgr)
    requires Registered(m) && Enabled(m, Sweep) && forall c: nat :: !Orphaned(m, c)
    ensures Hushed(Apply(m, Sweep))
  {
    var n := Apply(m, Sweep);
    forall c | 0 <= c < |n.runs| && c !in n.h.cancelled ensures !AtWork(n.runs[c]) {
      UncancelledHasLeft(m, c);
      assert !Orphaned(m, c);
    }
  }

  predicate IsWorking(e: Event) {
    e.Take? || e.Look? || e.Check? || e.Begin? || e.Return? || e.Drop?
  }

  lemma {:induction false} WorkingNeedsWork(m: Mgr, e: Event)
    requires Enabled(m, e) && IsWorking(e)
    ensures e.c < |m.runs| && AtWork(m.runs[e.c])
  {
    assert CanCall(m.runs[e.c], e.i);
  }

  /** Inside a run where nobody is at work nobody gets to work. */
  lemma {:induction false} IdleStays(m: Mgr, e: Event)
    requires Enabled(m, e) && IsInside(e) && m.closed && e.c < |m.runs| && !AtWork(m.runs[e.c])
    ensures !AtWork(Apply(m, e).runs[e.c])
  {
    var r, t := m.runs[e.c], Apply(m, e).runs[e.c];
    if IsWorking(e) {
      WorkingNeedsWork(m, e);
    }
    forall i | 0 <= i < |t.workers| ensures !CanCall(t, i) {
      assert i < |r.workers| && !CanCall(r, i);
    }
  }

  lemma {:induction false} HushedStep(m: Mgr, e: Event)
    requires Hushed(m) && Enabled(m, e)
    ensures Hushed(Apply(m, e))
  {
    if IsInside(e) {
      InsideIsLocal(m, e);
      if e.c !in m.h.cancelled {
        IdleStays(m, e);
      }
    } else if e.Leave? {
      assert AtWork(Apply(m, e).runs[e.c]) ==> AtWork(m.runs[e.c]) by { SameWork(m.runs[e.c]); }
    }
  }

  lemma {:induction false} SameWork(r: Run)
    ensures AtWork(r.(main := Left)) ==> AtWork(r)
  {
    if AtWork(r.(main := Left)) {
      var i :| 0 <= i < |r.workers| && CanCall(r.(main := Left), i);
      assert CanCall(r, i);
    }
  }

  lemma {:induction false} HushedAlways(m: Mgr, fs: seq<Event>)
    requires Hushed(m) && Legal(m, fs)
    ensures Hushed(RunAll(m, fs)) && !LiveCall(RunAll(m, fs))
  {
    if fs != [] {
      HushedAlways(m, Front(fs));
      HushedStep(RunAll(m, Front(fs)), Last(fs));
    }
    var n := RunAll(m, fs);
    forall c: nat, i: nat | At(n, c, i, InCall) ensures c in n.h.cancelled {
      assert CanCall(n.runs[c], i);
    }
  }

  // ---------- An orphan calls ----------

  /** Some continuation comes to a call that has not been cancelled. */
  ghost predicate MayCall(m: Mgr) {
    exists fs :: Legal(m, fs) && LiveCall(RunAll(m, fs))
  }

  lemma {:induction false} Prepend(m: Mgr, e: Event, fs: seq<Event>)
    requires Enabled(m, e) && Legal(Apply(m, e), fs)
    ensures Legal(m, [e] + fs) && RunAll(m, [e] + fs) == RunAll(Apply(m, e), fs)
  {
    if fs == [] {
      assert [e] + fs == [e] && Front([e]) == [] && Last([e]) == e;
    } else {
      Prepend(m, e, Front(fs));
      assert Front([e] + fs) == [e] + Front(fs) && Last([e] + fs) == Last(fs);
    }
  }

  lemma {:induction false} MayCallBefore(m: Mgr, e: Event)
    requires Enabled(m, e) && MayCall(Apply(m, e))
    ensures MayCall(m)
  {
    var fs :| Legal(Apply(m, e), fs) && LiveCall(RunAll(Apply(m, e), fs));
    Prepend(m, e, fs);
  }

  /** A worker at work in a run that has not been cancelled gets to call the provider. */
  lemma {:induction false} WorkerCalls(m: Mgr, c: nat, i: nat)
    requires c < |m.runs| && c !in m.h.cancelled && i < |m.runs[c].workers| && CanCall(m.runs[c], i)
    ensures MayCall(m)
    decreases match m.runs[c].workers[i] case Receiving => 4 case Holding => 3 case Looking => 2 case Cleared => 1
                                         case _ => 0
  {
    var w := m.runs[c].workers[i];
    if w.InCall? {
      assert At(m, c, i, InCall) && Legal(m, []) && RunAll(m, []) == m;
    } else {
      var e := match w case Receiving => Take(c, i) case Holding => Look(c, i) case Looking => Check(c, i)
                       case _ => Begin(c, i);
      WorkerCalls(Apply(m, e), c, i);
      MayCallBefore(m, e);
    }
  }

  lemma {:induction false} OrphanCalls(m: Mgr, c: nat)
    requires Registered(m) && Enabled(m, Sweep) && Orphaned(m, c)
    ensures MayCall(Apply(m, Sweep))
  {
    var i :| 0 <= i < |m.runs[c].workers| && CanCall(m.runs[c], i);
    WorkerCalls(Apply(m, Sweep), c, i);
  }

  lemma {:induction false} HushedNeverCalls(m: Mgr)
    requires Hushed(m)
    ensures !MayCall(m)
  {
    forall fs | Legal(m, fs) ensures !LiveCall(RunAll(m, fs)) {
      HushedAlways(m, fs);
    }
  }

  /** Close's sweep silences the sub-agents -- no worker is inside a provider call that has not
      been cancelled, then or ever after -- if and only if no run had left with workers still at
      work before it. */
  lemma {:induction false} SweepSilencesIff(es: seq<Event>)
    requires Legal(NewMgr(), es) && Enabled(RunAll(NewMgr(), es), Sweep)
    ensures var m := RunAll(NewMgr(), es);
            MayCall(Apply(m, Sweep)) <==> exists c: nat :: Orphaned(m, c)
  {
    var m := RunAll(NewMgr(), es);
    AlwaysRegistered(NewMgr(), es);
    if c: nat :| Orphaned(m, c) {
      OrphanCalls(m, c);
    } else {
      SweepHushes(m);
      HushedNeverCalls(Apply(m, Sweep));
    }
  }

  // ---------- Where orphans come from ----------

  /** `done` is closed once all workers are over, unless the waiter was refused; and a run leaves
      when it is closed, or cancelled, or without workers. */
  ghost predicate Accounted(m: Mgr, c: nat)
    requires c < |m.runs|
  {
    var r := m.runs[c];
    && (r.refused ==> m.closed)
    && (r.done && !r.refused ==> AllOver(r.workers) && (r.main.Selecting? || r.main.Left?))
    && (r.main.Left? ==> c in m.h.cancelled || r.done || r.workers == [])
  }

  ghost predicate AllAccounted(m: Mgr) {
    forall c | 0 <= c < |m.runs| :: Accounted(m, c)
  }

  lemma {:induction false} AccountedInside(m: Mgr, e: Event)
    requires Enabled(m, e) && IsInside(e) && e.c < |m.runs| && Accounted(m, e.c)
    ensures e.c < |Apply(m, e).runs| && Accounted(Apply(m, e), e.c)
  {
    var r := m.runs[e.c];
    if IsWorking(e) || e.WorkerEnds? {
      assert r.workers[e.i] in r.workers;
    }
  }

  lemma {:induction false} AccountedStep(m: Mgr, e: Event)
    requires AllAccounted(m) && Enabled(m, e)
    ensures AllAccounted(Apply(m, e))
  {
    if IsInside(e) {
      InsideIsLocal(m, e);
      AccountedInside(m, e);
      assert forall c | 0 <= c < |m.runs| && c != e.c :: Accounted(m, c) ==> Accounted(Apply(m, e), c);
    } else {
      forall c | 0 <= c < |Apply(m, e).runs| ensures Accounted(Apply(m, e), c) {
        assert c < |m.runs| ==> Accounted(m, c);
      }
    }
  }

  /** A run can leave workers behind, uncancelled, only where its waiter was refused, so never
      before Close's mark. */
  lemma {:induction false} OrphanWasRefused(es: seq<Event>, c: nat)
    requires Legal(NewMgr(), es) && Orphaned(RunAll(NewMgr(), es), c)
    ensures RunAll(NewMgr(), es).runs[c].refused && RunAll(NewMgr(), es).closed
  {
    AlwaysAccounted(NewMgr(), es);
    var m := RunAll(NewMgr(), es);
    assert Accounted(m, c);
    var i :| 0 <= i < |m.runs[c].workers| && CanCall(m.runs[c], i);
    assert m.runs[c].workers[i] in m.runs[c].workers;
  }

  lemma {:induction false} AlwaysAccounted(m: Mgr, es: seq<Event>)
    requires AllAccounted(m) && Legal(m, es)
    ensures AllAccounted(RunAll(m, es))
  {
    if es != [] {
      AlwaysAccounted(m, Front(es));
      AccountedStep(RunAll(m, Front(es)), Last(es));
    }
  }

  /** A run with one worker and one task, whose workers and feeder are up. */
  function Started(key: Key): Mgr {
    Mgr(Registry(map[key := 0], {}, 1), false, false,
        [Run(key, 1, SpawnsWaiter, Offering(1), [Receiving], false, false)])
  }

  lemma {:induction false} OneMore(m: Mgr, es: seq<Event>, e: Event)
    requires Legal(m, es) && Enabled(RunAll(m, es), e)
    ensures Legal(m, es + [e]) && RunAll(m, es + [e]) == Apply(RunAll(m, es), e)
  {
    assert Front(es + [e]) == es && Last(es + [e]) == e;
  }

  lemma {:induction false} StartsUp(key: Key) returns (es: seq<Event>)
    ensures Legal(NewMgr(), es) && RunAll(NewMgr(), es) == Started(key)
  {
    OneMore(NewMgr(), [], Register(key, 1));
    es := [] + [Register(key, 1)];
    OneMore(NewMgr(), es, SpawnWorker(0));
    es := es + [SpawnWorker(0)];
    OneMore(NewMgr(), es, SpawnFeeder(0));
    es := es + [SpawnFeeder(0)];
    assert [] + [Receiving] == [Receiving];
  }

  /** It happens: the mark falls between the spawning of the feeder and of the waiter, and the
      run leaves before the sweep.  The worker then takes its task. */
  lemma {:induction false} OrphanOutlivesSweep(key: Key) returns (es: seq<Event>)
    ensures Legal(NewMgr(), es) && Enabled(RunAll(NewMgr(), es), Sweep) && Orphaned(RunAll(NewMgr(), es), 0)
  {
    es := StartsUp(key);
    OneMore(NewMgr(), es, Mark);
    es := es + [Mark];
    OneMore(NewMgr(), es, SpawnWaiter(0));
    es := es + [SpawnWaiter(0)];
    OneMore(NewMgr(), es, Leave(0));
    es := es + [Leave(0)];
    assert CanCall(RunAll(NewMgr(), es).runs[0], 0);
  }

  // ---------- How much is handed out ----------

  function Taken(es: seq<Event>, c: nat): nat {
    if es == [] then 0 else Taken(Front(es), c) + if Last(es).Take? && Last(es).c == c then 1 else 0
  }

  function ToHandOut(r: Run): nat {
    if r.main.Spawning? then r.tasks else if r.feeder.Offering? then r.feeder.left else 0
  }

  /** The feeder comes after the workers. */
  predicate FeederFollows(r: Run) {
    r.main.Spawning? ==> r.feeder.NoFeeder?
  }

  /** A run hands out no more than its tasks, wherever its workers go on. */
  lemma {:induction false} HandsOutItsTasks(es: seq<Event>, c: nat)
    requires Legal(NewMgr(), es)
    ensures var m := RunAll(NewMgr(), es);
            if c < |m.runs| then
              Taken(es, c) + ToHandOut(m.runs[c]) <= m.runs[c].tasks && FeederFollows(m.runs[c])
            else Taken(es, c) == 0
  {
    if es != [] {
      HandsOutItsTasks(Front(es), c);
      HandsOutStep(RunAll(NewMgr(), Front(es)), Last(es), c);
    }
  }

  lemma {:induction false} HandsOutStep(m: Mgr, e: Event, c: nat)
    requires Enabled(m, e) && (c < |m.runs| ==> FeederFollows(m.runs[c]))
    ensures c < |Apply(m, e).runs| ==> FeederFollows(Apply(m, e).runs[c])
    ensures c < |m.runs| ==>
              && c < |Apply(m, e).runs| && Apply(m, e).runs[c].tasks == m.runs[c].tasks
              && ToHandOut(Apply(m, e).runs[c]) + (if e.Take? && e.c == c then 1 else 0) <= ToHandOut(m.runs[c])
    ensures c >= |m.runs| ==>
              && !(e.Take? && e.c == c)
              && (c < |Apply(m, e).runs| ==> ToHandOut(Apply(m, e).runs[c]) <= Apply(m, e).runs[c].tasks)
  {
  }

  // ---------- A user's stop ----------

  /** A cancelled run's worker calls the provider no more, once it has looked: it is inside a call or
      about to make one only if it was when the run was cancelled. */
  ghost predicate Silenced(before: Mgr, m: Mgr, c: nat) {
    && c < |before.runs| <= |m.runs| && c in m.h.cancelled
    && forall i: nat | i < |m.runs[c].workers| && (m.runs[c].workers[i].Cleared? || m.runs[c].workers[i].InCall?) ::
         i < |before.runs[c].workers| && (m.runs[c].workers[i] == before.runs[c].workers[i]
                                          || (before.runs[c].workers[i].Cleared? && m.runs[c].workers[i].InCall?))
  }

  lemma {:induction false} SilencedStep(before: Mgr, m: Mgr, c: nat, e: Event)
    requires Silenced(before, m, c) && Enabled(m, e)
    ensures Silenced(before, Apply(m, e), c)
  {
  }

  lemma {:induction false} StaysSilenced(before: Mgr, m: Mgr, c: nat, fs: seq<Event>)
    requires Silenced(before, m, c) && Legal(m, fs)
    ensures Silenced(before, RunAll(m, fs), c)
  {
    if fs != [] {
      StaysSilenced(before, m, c, Front(fs));
      SilencedStep(before, RunAll(m, Front(fs)), c, Last(fs));
    }
  }

  /** A session's stop cancels exactly its own runs that have not left, and from then on their
      workers begin no provider call that they had not looked for already. */
  lemma {:induction false} StopSilencesItsRuns(es: seq<Event>, session: string, c: nat, fs: seq<Event>)
    requires Legal(NewMgr(), es) && c < |RunAll(NewMgr(), es).runs| && c !in RunAll(NewMgr(), es).h.cancelled
    requires Legal(Apply(RunAll(NewMgr(), es), Stop(session)), fs)
    ensures var m := RunAll(NewMgr(), es);
            var stopped := Apply(m, Stop(session));
            && (c in stopped.h.cancelled <==> StartsWith(m.runs[c].key, session + ":") && !m.runs[c].main.Left?)
            && (c in stopped.h.cancelled ==> Silenced(m, RunAll(stopped, fs), c))
  {
    var m := RunAll(NewMgr(), es);
    AlwaysRegistered(NewMgr(), es);
    StopCancels(m, session, c);
    if c in Apply(m, Stop(session)).h.cancelled {
      StaysSilenced(m, Apply(m, Stop(session)), c, fs);
    }
  }

  lemma {:induction false} StopCancels(m: Mgr, session: string, c: nat)
    requires Registered(m) && c < |m.runs| && c !in m.h.cancelled
    ensures c in Apply(m, Stop(session)).h.cancelled
       <==> StartsWith(m.runs[c].key, session + ":") && !m.runs[c].main.Left?
  {
    var key := m.runs[c].key;
    if !m.runs[c].main.Left? && StartsWith(key, session + ":") {
      assert key in RunsOf(m.h, session);
    }
  }

  // ---------- The manager's maps ----------

  /** The fields about runs of task groups and the sections that change them.  (A stopped run is
      also marked in a map of its own, together with its context.) */
  class TaskGroups {
    var taskGroupCancels: map<Key, Context>
    var cancelled: set<Context>
    var begun: nat

    function View(): Registry
      reads this
    {
      Registry(taskGroupCancels, cancelled, begun)
    }

    constructor ()
      ensures View() == NewMgr().h
    {
      taskGroupCancels, cancelled, begun := map[], {}, 0;
    }

    method RegisterRun(key: Key) returns (taken: bool)
      modifies this`taskGroupCancels, this`begun
      ensures (View(), taken) == RegisterSection(old(View()), key)
    {
      if key in taskGroupCancels { return false; }
      taskGroupCancels := taskGroupCancels[key := begun];
      begun := begun + 1;
      return true;
    }

    method FinishTaskGroupRun(key: Key)
      modifies this`taskGroupCancels
      ensures View() == FinishSection(old(View()), key)
    {
      taskGroupCancels := taskGroupCancels - {key};
    }

    /** Visits every registered run, and cancels those of the session. */
    method StopSession(session: string)
      modifies this`cancelled
      ensures View() == StopSection(old(View()), session)
    {
      var todo := taskGroupCancels.Keys;
      while todo != {}
        invariant todo <= taskGroupCancels.Keys
        invariant cancelled
               == old(cancelled) + set k | k in RunsOf(View(), session) && k !in todo :: taskGroupCancels[k]
        decreases |todo|
      {
        var key :| key in todo;
        if StartsWith(key, session + ":") {
          cancelled := cancelled + {taskGroupCancels[key]};
        }
        todo := todo - {key};
      }
    }

    method CancelAllRuns()
      modifies this`cancelled
      ensures View() == SweepSection(old(View()))
    {
      var todo := taskGroupCancels.Keys;
      while todo != {}
        invariant todo <= taskGroupCancels.Keys
        invariant cancelled == old(cancelled) + set k | k in taskGroupCancels && k !in todo :: taskGroupCancels[k]
        decreases |todo|
      {
        var key :| key in todo;
        cancelled := cancelled + {taskGroupCancels[key]};
        todo := todo - {key};
      }
    }

    /** What a thread does to the maps in one step of a run. */
    method Perform(m: Mgr, e: Event)
      requires View() == m.h && Enabled(m, e)
      modifies this
      ensures View() == Apply(m, e).h
    {
      match e {
        case Register(key, _) => var _ := RegisterRun(key);
        case Leave(c) => FinishTaskGroupRun(m.runs[c].key);
        case Stop(session) => StopSession(session);
        case Sweep => CancelAllRuns();
        case _ =>
      }
    }
  }
}
