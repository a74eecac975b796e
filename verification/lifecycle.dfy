/** The manager's background runs: how goBackground counts them, how Close refuses new ones,
    cancels and waits, and how run loops of many sessions open and end provider calls while
    that happens.

    The fields are the manager's own; each function is one section run under `mu` or `bgMu`. */
module Lifecycle {
  import opened Common

  type SessionId = string
  type Context = nat

  /** What Close, the run loops and the background goroutines share. */
  datatype Shared = Shared(
    bgClosed: bool,
    bg: int,                             // the WaitGroup's counter
    bgActive: int,                       // the count Close reports
    running: set<SessionId>,
    stop: set<SessionId>,
    cancels: map<SessionId, Context>,    // runningCancels
    cancelled: set<Context>,             // contexts that have been cancelled
    begun: nat)                         // provider calls begun so far; the next context

  // ---------- Sections ----------

  function GoSection(h: Shared): (Shared, bool) {
    if h.bgClosed then (h, false) else (h.(bg := h.bg + 1, bgActive := h.bgActive + 1), true)
  }

  function StartSection(h: Shared, s: SessionId): Shared {
    if s in h.running then h else h.(running := h.running + {s}, stop := h.stop - {s})
  }

  function UndoSection(h: Shared, s: SessionId): Shared {
    h.(running := h.running - {s})
  }

  function BeginSection(h: Shared, s: SessionId): (Shared, bool) {
    if s in h.stop then (h, false)
    else (h.(cancels := h.cancels[s := h.begun], begun := h.begun + 1), true)
  }

  function FinishSection(h: Shared, s: SessionId): Shared {
    h.(cancels := h.cancels - {s})
  }

  function UnwindSection(h: Shared, s: SessionId): Shared {
    h.(cancelled := if s in h.cancels then h.cancelled + {h.cancels[s]} else h.cancelled,
       running := h.running - {s}, cancels := h.cancels - {s}, stop := h.stop - {s})
  }

  function StopSection(h: Shared, s: SessionId): Shared {
    h.(stop := h.stop + {s},
       cancelled := if s in h.cancels then h.cancelled + {h.cancels[s]} else h.cancelled)
  }

  function CloseSection(h: Shared): (Shared, bool) {
    (h.(bgClosed := true), !h.bgClosed)
  }

  function SweepSection(h: Shared): Shared {
    h.(stop := h.stop + h.running, cancelled := h.cancelled + h.cancels.Values)
  }

  // ---------- Threads ----------

  datatype LoopPc = Top | InCall(ctx: Context) | Out

  datatype Thread =
    | Starter(s: SessionId)          // ran startRun's section, has not called goBackground yet
    | Refused(s: SessionId)          // goBackground refused; has to undo
    | Loop(s: SessionId, pc: LoopPc) // a run loop's goroutine
    | Task                           // any other tracked goroutine
    | Ending                         // its function has returned
    | Counted                        // after the decrement of bgActive
  {
    predicate Tracked() {
      Loop? || Task? || Ending? || Counted?
    }
    predicate Owns(id: SessionId) {
      (Starter? && s == id) || (Refused? && s == id) || (Loop? && s == id)
    }
  }

  datatype Closer = Sweeping | Waiting | Closed | TimedOut

  datatype Mgr = Mgr(h: Shared, threads: map<nat, Thread>, closers: map<nat, Closer>, ghost swept: bool)

  datatype Event =
    | Start(t: nat, s: SessionId) | Spawn(t: nat) | Undo(t: nat)
    | SpawnTask(t: nat) | TaskEnds(t: nat)
    | Begin(t: nat) | Finish(t: nat) | Leave(t: nat) | Unwind(t: nat)
    | CountDown(t: nat) | Done(t: nat)
    | Stop(s: SessionId)
    | CloseCall(k: nat) | Sweep(k: nat) | CloseReturns(k: nat) | CloseGivesUp(k: nat)

  predicate At(m: Mgr, t: nat, th: Thread) {
    t in m.threads && m.threads[t] == th
  }

  predicate Enabled(m: Mgr, e: Event) {
    match e
    case Start(t, s) => t !in m.threads && s !in m.h.running
    case Spawn(t) => t in m.threads && m.threads[t].Starter?
    case Undo(t) => t in m.threads && m.threads[t].Refused?
    case SpawnTask(t) => t !in m.threads
    case TaskEnds(t) => At(m, t, Task)
    case Begin(t) => t in m.threads && m.threads[t].Loop? && m.threads[t].pc.Top?
    case Finish(t) => t in m.threads && m.threads[t].Loop? && m.threads[t].pc.InCall?
    case Leave(t) => t in m.threads && m.threads[t].Loop? && m.threads[t].pc.Top?
    case Unwind(t) => t in m.threads && m.threads[t].Loop? && m.threads[t].pc.Out?
    case CountDown(t) => At(m, t, Ending)
    case Done(t) => At(m, t, Counted)
    case Stop(_) => true
    case CloseCall(k) => k !in m.closers
    case Sweep(k) => k in m.closers && m.closers[k].Sweeping?
    case CloseReturns(k) => k in m.closers && m.closers[k].Waiting? && m.h.bg == 0
    case CloseGivesUp(k) => k in m.closers && m.closers[k].Waiting?
  }

  function Apply(m: Mgr, e: Event): Mgr
    requires Enabled(m, e)
  {
    match e
    case Start(t, s) => m.(h := StartSection(m.h, s), threads := m.threads[t := Starter(s)])
    case Spawn(t) =>
      var (h, ok) := GoSection(m.h);
      var s := m.threads[t].s;
      m.(h := h, threads := m.threads[t := if ok then Loop(s, Top) else Refused(s)])
    case Undo(t) => m.(h := UndoSection(m.h, m.threads[t].s), threads := m.threads - {t})
    case SpawnTask(t) =>
      var (h, ok) := GoSection(m.h);
      if ok then m.(h := h, threads := m.threads[t := Task]) else m
    case TaskEnds(t) => m.(threads := m.threads[t := Ending])
    case Begin(t) =>
      var s := m.threads[t].s;
      var (h, ok) := BeginSection(m.h, s);
      m.(h := h, threads := m.threads[t := Loop(s, if ok then InCall(m.h.begun) else Out)])
    case Finish(t) =>
      var s := m.threads[t].s;
      m.(h := FinishSection(m.h, s), threads := m.threads[t := Loop(s, Top)])
    case Leave(t) => m.(threads := m.threads[t := Loop(m.threads[t].s, Out)])
    case Unwind(t) => m.(h := UnwindSection(m.h, m.threads[t].s), threads := m.threads[t := Ending])
    case CountDown(t) => m.(h := m.h.(bgActive := m.h.bgActive - 1), threads := m.threads[t := Counted])
    case Done(t) => m.(h := m.h.(bg := m.h.bg - 1), threads := m.threads - {t})
    case Stop(s) => m.(h := StopSection(m.h, s))
    case CloseCall(k) =>
      var (h, first) := CloseSection(m.h);
      m.(h := h, closers := m.closers[k := if first then Sweeping else Waiting])
    case Sweep(k) => m.(h := SweepSection(m.h), closers := m.closers[k := Waiting], swept := true)
    case CloseReturns(k) => m.(closers := m.closers[k := Closed])
    case CloseGivesUp(k) => m.(closers := m.closers[k := TimedOut])
  }

  ghost predicate Legal(m: Mgr, es: seq<Event>)
    decreases |es|, 0
  {
    es != [] ==> Legal(m, Front(es)) && Enabled(RunAll(m, Front(es)), Last(es))
  }

  ghost function RunAll(m: Mgr, es: seq<Event>): Mgr
    requires Legal(m, es)
    decreases |es|, 1
  {
    if es == [] then m else Apply(RunAll(m, Front(es)), Last(es))
  }

  /** A manager that has just been made. */
  ghost predicate New(m: Mgr) {
    && m.h == Shared(false, 0, 0, {}, {}, map[], {}, 0)
    && m.threads == map[] && m.closers == map[] && !m.swept
  }

  function NewMgr(): (m: Mgr)
    ensures New(m)
  {
    Mgr(Shared(false, 0, 0, {}, {}, map[], {}, 0), map[], map[], false)
  }

  // ---------- Counting ----------

  ghost function Tracked(m: Mgr): set<nat> {
    set t | t in m.threads && m.threads[t].Tracked()
  }

  /** The goroutines whose function has not been counted out yet. */
  ghost function Live(m: Mgr): set<nat> {
    set t | t in m.threads && m.threads[t].Tracked() && !m.threads[t].Counted?
  }

  ghost predicate Counts(m: Mgr) {
    && m.h.bg == |Tracked(m)| && m.h.bgActive == |Live(m)|
    && (forall k | k in m.closers :: m.h.bgClosed)
    && (forall k | k in m.closers && m.closers[k].Closed? :: Tracked(m) == {})
  }

  lemma {:induction false} OneMore(m: Mgr, n: Mgr, t: nat, th: Thread)
    requires t !in Tracked(m) && (th.Loop? || th.Task?) && n.threads == m.threads[t := th]
    ensures Tracked(n) == Tracked(m) + {t} && Live(n) == Live(m) + {t}
    ensures |Tracked(n)| == |Tracked(m)| + 1 && |Live(n)| == |Live(m)| + 1
  {
    assert t !in Live(m);
  }

  lemma {:induction false} CountsAdd(m: Mgr, n: Mgr, t: nat, th: Thread)
    requires Counts(m) && !m.h.bgClosed && n.closers == m.closers
    requires t !in Tracked(m) && (th.Loop? || th.Task?) && n.threads == m.threads[t := th]
    requires n.h.bg == m.h.bg + 1 && n.h.bgActive == m.h.bgActive + 1
    ensures Counts(n)
  {
    OneMore(m, n, t, th);
    assert forall k :: k !in m.closers;
  }

  lemma {:induction false} CountsGo(m: Mgr, e: Event)
    requires Counts(m) && Enabled(m, e) && (e.Spawn? || e.SpawnTask?)
    ensures Counts(Apply(m, e))
  {
    var n := Apply(m, e);
    if m.h.bgClosed {
      assert Tracked(n) == Tracked(m) && Live(n) == Live(m);
    } else {
      CountsAdd(m, n, e.t, n.threads[e.t]);
    }
  }

  lemma {:induction false} CountsEnd(m: Mgr, e: Event)
    requires Counts(m) && Enabled(m, e) && (e.CountDown? || e.Done?)
    ensures Counts(Apply(m, e))
  {
    var n := Apply(m, e);
    assert e.t in Tracked(m);
    if e.CountDown? {
      assert Tracked(n) == Tracked(m) && Live(n) == Live(m) - {e.t};
    } else {
      assert Tracked(n) == Tracked(m) - {e.t} && Live(n) == Live(m);
    }
  }

  lemma {:induction false} CountsStep(m: Mgr, e: Event)
    requires Counts(m) && Enabled(m, e)
    ensures Counts(Apply(m, e))
  {
    if e.Spawn? || e.SpawnTask? {
      CountsGo(m, e);
    } else if e.CountDown? || e.Done? {
      CountsEnd(m, e);
    } else {
      assert Tracked(Apply(m, e)) == Tracked(m);
      assert Live(Apply(m, e)) == Live(m);
    }
  }

  /** bgActive is the number of live background goroutines in every reachable state, and the
      WaitGroup's counter runs exactly one decrement behind it. */
  lemma {:induction false} CountsAlways(m: Mgr, es: seq<Event>)
    requires New(m) && Legal(m, es)
    ensures Counts(RunAll(m, es))
  {
    if es != [] {
      CountsAlways(m, Front(es));
      CountsStep(RunAll(m, Front(es)), Last(es));
    } else {
      assert Tracked(m) == {} && Live(m) == {};
    }
  }

  lemma {:induction false} ShutStep(m: Mgr, e: Event)
    requires Enabled(m, e)
    ensures m.h.bgClosed ==> Apply(m, e).h.bgClosed && Apply(m, e).h.bg <= m.h.bg
    ensures forall k | k in m.closers && m.closers[k].Closed? ::
              k in Apply(m, e).closers && Apply(m, e).closers[k].Closed?
  {
  }

  /** After Close has marked the manager, nothing is ever added to the WaitGroup. */
  lemma {:induction false} NoAddAfterClose(m: Mgr, es: seq<Event>)
    requires m.h.bgClosed && Legal(m, es)
    ensures RunAll(m, es).h.bgClosed && RunAll(m, es).h.bg <= m.h.bg
  {
    if es != [] {
      NoAddAfterClose(m, Front(es));
      ShutStep(RunAll(m, Front(es)), Last(es));
    }
  }

  lemma {:induction false} Extend(m: Mgr, es: seq<Event>, e: Event)
    requires Legal(m, es) && Enabled(RunAll(m, es), e)
    ensures Legal(m, es + [e]) && RunAll(m, es + [e]) == Apply(RunAll(m, es), e)
  {
    assert Front(es + [e]) == es;
  }

  lemma {:induction false} Join(m: Mgr, es: seq<Event>, fs: seq<Event>)
    requires Legal(m, es) && Legal(RunAll(m, es), fs)
    ensures Legal(m, es + fs) && RunAll(m, es + fs) == RunAll(RunAll(m, es), fs)
  {
    if fs == [] {
      assert es + fs == es;
    } else {
      Join(m, es, fs[..|fs| - 1]);
      assert (es + fs)[..|es + fs| - 1] == es + fs[..|fs| - 1];
    }
  }

  lemma {:induction false} StaysClosed(m: Mgr, es: seq<Event>, k: nat)
    requires Legal(m, es) && k in m.closers && m.closers[k].Closed?
    ensures k in RunAll(m, es).closers && RunAll(m, es).closers[k].Closed?
  {
    if es != [] {
      StaysClosed(m, Front(es), k);
      ShutStep(RunAll(m, Front(es)), Last(es));
    }
  }

  /** Once a Close has returned without an error, no background goroutine of the manager is
      left, then or in any later state, and none starts. */
  lemma {:induction false} ClosedIsQuiet(m: Mgr, es: seq<Event>, fs: seq<Event>, k: nat)
    requires New(m) && Legal(m, es) && Legal(RunAll(m, es), fs)
    requires k in RunAll(m, es).closers && RunAll(m, es).closers[k].Closed?
    ensures var later := RunAll(RunAll(m, es), fs);
            Tracked(later) == {} && later.h.bg == 0 && later.h.bgActive == 0
            && forall t | t in later.threads :: !later.threads[t].Tracked()
  {
    Join(m, es, fs);
    CountsAlways(m, es + fs);
    StaysClosed(RunAll(m, es), fs, k);
    var later := RunAll(RunAll(m, es), fs);
    assert Tracked(later) == {};
    assert Live(later) <= Tracked(later);
    forall t | t in later.threads ensures !later.threads[t].Tracked() {
      assert t !in Tracked(later);
    }
  }

  // ---------- Silence ----------

  /** A session is marked running by exactly one thread: the one starting its run loop, the
      one undoing a refused start, or the run loop itself. */
  ghost predicate Owned(m: Mgr) {
    && (forall t | t in m.threads && (m.threads[t].Starter? || m.threads[t].Refused? || m.threads[t].Loop?) ::
          m.threads[t].s in m.h.running)
    && (forall t, u | t in m.threads && u in m.threads && t != u ::
          !(exists s :: m.threads[t].Owns(s) && m.threads[u].Owns(s)))
  }

  /** A run loop's open call is the one a stop would cancel. */
  ghost predicate CallsKnown(m: Mgr) {
    forall t | t in m.threads && m.threads[t].Loop? && m.threads[t].pc.InCall? ::
      m.threads[t].s in m.h.cancels && m.h.cancels[m.threads[t].s] == m.threads[t].pc.ctx
  }

  /** After the sweep every run loop has its stop, and every open call is cancelled. */
  ghost predicate Silenced(m: Mgr) {
    m.swept ==>
      && m.h.bgClosed
      && forall t | t in m.threads && m.threads[t].Loop? ::
           m.threads[t].s in m.h.stop && (m.threads[t].pc.InCall? ==> m.threads[t].pc.ctx in m.h.cancelled)
  }

  ghost predicate Quiet(m: Mgr) {
    Owned(m) && CallsKnown(m) && Silenced(m) && forall k | k in m.closers :: m.h.bgClosed
  }

  lemma {:induction false} OneOwner(m: Mgr, t: nat, u: nat)
    requires Owned(m) && t in m.threads && u in m.threads && t != u
    requires m.threads[t].Starter? || m.threads[t].Refused? || m.threads[t].Loop?
    requires m.threads[u].Starter? || m.threads[u].Refused? || m.threads[u].Loop?
    ensures m.threads[t].s != m.threads[u].s
  {
    assert m.threads[t].Owns(m.threads[t].s);
    assert m.threads[u].Owns(m.threads[u].s);
  }

  lemma {:induction false} OneOwnerStep(m: Mgr, e: Event)
    requires Owned(m) && Enabled(m, e)
    ensures var n := Apply(m, e);
            forall t, u | t in n.threads && u in n.threads && t != u ::
              !(exists s :: n.threads[t].Owns(s) && n.threads[u].Owns(s))
  {
    var n := Apply(m, e);
    forall t, u | t in n.threads && u in n.threads && t != u
      ensures !(exists s :: n.threads[t].Owns(s) && n.threads[u].Owns(s))
    {
      if t in m.threads && u in m.threads {
        assert !(exists s :: m.threads[t].Owns(s) && m.threads[u].Owns(s));
      }
    }
  }

  lemma {:induction false} OwnersRun(m: Mgr, e: Event)
    requires Owned(m) && Enabled(m, e)
    ensures var n := Apply(m, e);
            forall t | t in n.threads && (n.threads[t].Starter? || n.threads[t].Refused? || n.threads[t].Loop?) ::
              n.threads[t].s in n.h.running
  {
    var n := Apply(m, e);
    forall t | t in n.threads && (n.threads[t].Starter? || n.threads[t].Refused? || n.threads[t].Loop?)
      ensures n.threads[t].s in n.h.running
    {
      if (e.Undo? || e.Unwind?) && t in m.threads && t != e.t {
        OneOwner(m, t, e.t);
      }
    }
  }

  lemma {:induction false} OwnedStep(m: Mgr, e: Event)
    requires Owned(m) && Enabled(m, e)
    ensures Owned(Apply(m, e))
  {
    OneOwnerStep(m, e);
    OwnersRun(m, e);
  }

  lemma {:induction false} CallsKnownStep(m: Mgr, e: Event)
    requires Owned(m) && CallsKnown(m) && Enabled(m, e)
    ensures CallsKnown(Apply(m, e))
  {
    var n := Apply(m, e);
    forall t | t in n.threads && n.threads[t].Loop? && n.threads[t].pc.InCall?
      ensures n.threads[t].s in n.h.cancels && n.h.cancels[n.threads[t].s] == n.threads[t].pc.ctx
    {
      if (e.Begin? || e.Finish? || e.Unwind?) && t != e.t {
        OneOwner(m, t, e.t);
      }
    }
  }

  lemma {:induction false} SilencedStep(m: Mgr, e: Event)
    requires Quiet(m) && Enabled(m, e)
    ensures Silenced(Apply(m, e))
  {
    var n := Apply(m, e);
    if n.swept {
      forall t | t in n.threads && n.threads[t].Loop?
        ensures n.threads[t].s in n.h.stop && (n.threads[t].pc.InCall? ==> n.threads[t].pc.ctx in n.h.cancelled)
      {
        if e.Unwind? && t != e.t {
          OneOwner(m, t, e.t);
        }
      }
    }
  }

  lemma {:induction false} QuietStep(m: Mgr, e: Event)
    requires Quiet(m) && Enabled(m, e)
    ensures Quiet(Apply(m, e))
  {
    OwnedStep(m, e);
    CallsKnownStep(m, e);
    SilencedStep(m, e);
  }

  lemma {:induction false} QuietAlways(m: Mgr, es: seq<Event>)
    requires New(m) && Legal(m, es)
    ensures Quiet(RunAll(m, es))
  {
    if es != [] {
      QuietAlways(m, Front(es));
      QuietStep(RunAll(m, Front(es)), Last(es));
    }
  }

  lemma {:induction false} Silent(m: Mgr, fs: seq<Event>)
    requires Quiet(m) && m.swept && Legal(m, fs)
    ensures Quiet(RunAll(m, fs)) && RunAll(m, fs).swept && RunAll(m, fs).h.begun == m.h.begun
  {
    if fs != [] {
      var e := fs[|fs| - 1];
      Silent(m, fs[..|fs| - 1]);
      QuietStep(RunAll(m, fs[..|fs| - 1]), e);
    }
  }

  /** Once Close has marked the manager and swept it, no run loop of any session opens
      another provider call, ever, and every call still open has been cancelled. */
  lemma {:induction false} SilenceAfterClose(m: Mgr, es: seq<Event>, fs: seq<Event>)
    requires New(m) && Legal(m, es) && RunAll(m, es).swept && Legal(RunAll(m, es), fs)
    ensures var later := RunAll(RunAll(m, es), fs);
            && later.h.begun == RunAll(m, es).h.begun
            && forall t | t in later.threads && later.threads[t].Loop? ::
                 later.threads[t].s in later.h.stop
                 && (later.threads[t].pc.InCall? ==> later.threads[t].pc.ctx in later.h.cancelled)
  {
    QuietAlways(m, es);
    Silent(RunAll(m, es), fs);
  }

  /** The mark alone is not enough: between it and the sweep a run loop that was already up
      may still open a call. */
  lemma {:induction false} MarkAloneIsNotSilence(s: SessionId)
    ensures var m := NewMgr();
            var es := [Start(0, s), Spawn(0), CloseCall(0)];
            && New(m) && Legal(m, es) && RunAll(m, es).h.bgClosed
            && Enabled(RunAll(m, es), Begin(0)) && Apply(RunAll(m, es), Begin(0)).h.begun == 1
  {
    var m := NewMgr();
    var es := [Start(0, s), Spawn(0), CloseCall(0)];
    var e1, e2 := [Start(0, s)], [Start(0, s), Spawn(0)];
    assert Front(e1) == [] && Front(e2) == e1 && Front(es) == e2;
    assert Legal(m, e1) && RunAll(m, e1).threads[0] == Starter(s);
    assert Legal(m, e2) && RunAll(m, e2).threads[0] == Loop(s, Top);
  }

  /** And no session is marked running without a thread that will unmark it. */
  lemma {:induction false} RunningIsOwned(m: Mgr, es: seq<Event>, s: SessionId)
    requires New(m) && Legal(m, es) && s in RunAll(m, es).h.running
    ensures exists t :: t in RunAll(m, es).threads && RunAll(m, es).threads[t].Owns(s)
  {
    if es != [] {
      var n, e := RunAll(m, Front(es)), Last(es);
      if s in n.h.running {
        RunningIsOwned(m, Front(es), s);
        QuietAlways(m, Front(es));
        var t :| t in n.threads && n.threads[t].Owns(s);
        OwnerStays(n, e, t, s);
      } else {
        assert Apply(n, e).threads[e.t].Owns(s);
      }
    }
  }

  lemma {:induction false} OwnerStays(m: Mgr, e: Event, t: nat, s: SessionId)
    requires Owned(m) && Enabled(m, e) && t in m.threads && m.threads[t].Owns(s) && s in Apply(m, e).h.running
    ensures t in Apply(m, e).threads && Apply(m, e).threads[t].Owns(s)
  {
    if (e.Undo? || e.Unwind?) && e.t != t {
      OneOwner(m, t, e.t);
    }
  }

  /** How many Closes are to sweep, or whether one has. */
  ghost predicate SweepsOnce(m: Mgr) {
    && (forall k | k in m.closers && m.closers[k].Sweeping? :: !m.swept && m.h.bgClosed)
    && (forall k, j | k in m.closers && j in m.closers && m.closers[k].Sweeping? && m.closers[j].Sweeping? :: k == j)
    && (m.swept ==> m.h.bgClosed)
  }

  /** Only the first Close sweeps, however many there are. */
  lemma {:induction false} OneSweep(m: Mgr, es: seq<Event>)
    requires New(m) && Legal(m, es)
    ensures SweepsOnce(RunAll(m, es))
  {
    if es != [] {
      OneSweep(m, Front(es));
      OneSweepStep(RunAll(m, Front(es)), Last(es));
    }
  }

  lemma {:induction false} OneSweepStep(m: Mgr, e: Event)
    requires SweepsOnce(m) && Enabled(m, e)
    ensures SweepsOnce(Apply(m, e))
  {
  }

  // ---------- What a user's stop does ----------

  /** Contexts are new for each call: the registered ones differ, and none that was cancelled will
      be given out again.  What is registered for a session is its run loop's open call. */
  ghost predicate OwnContexts(m: Mgr) {
    && (forall s | s in m.h.cancels :: m.h.cancels[s] < m.h.begun)
    && (forall s, r | s in m.h.cancels && r in m.h.cancels && m.h.cancels[s] == m.h.cancels[r] :: s == r)
    && (forall c | c in m.h.cancelled :: c < m.h.begun)
    && (forall s | s in m.h.cancels :: exists t :: OpensCall(m, t, s))
  }

  ghost predicate OpensCall(m: Mgr, t: nat, s: SessionId) {
    t in m.threads && m.threads[t].Loop? && m.threads[t].s == s && m.threads[t].pc.InCall?
  }

  lemma {:induction false} ContextsStep(m: Mgr, e: Event)
    requires OwnContexts(m) && Enabled(m, e)
    ensures var h := Apply(m, e).h;
            && (forall s | s in h.cancels :: h.cancels[s] < h.begun)
            && (forall s, r | s in h.cancels && r in h.cancels && h.cancels[s] == h.cancels[r] :: s == r)
            && (forall c | c in h.cancelled :: c < h.begun)
  {
  }

  lemma {:induction false} OpenCallsStep(m: Mgr, e: Event, s: SessionId)
    requires OwnContexts(m) && Owned(m) && Enabled(m, e) && s in Apply(m, e).h.cancels
    ensures exists t :: OpensCall(Apply(m, e), t, s)
  {
    if s in m.h.cancels {
      var t :| OpensCall(m, t, s);
      OpenCallStays(m, e, t, s);
    } else {
      assert OpensCall(Apply(m, e), e.t, s);
    }
  }

  lemma {:induction false} OpenCallStays(m: Mgr, e: Event, t: nat, s: SessionId)
    requires Owned(m) && OpensCall(m, t, s) && Enabled(m, e) && s in Apply(m, e).h.cancels
    ensures OpensCall(Apply(m, e), t, s)
  {
    if e.Finish? && e.t != t {
      OneOwner(m, t, e.t);
    }
  }

  lemma {:induction false} OwnContextsStep(m: Mgr, e: Event)
    requires OwnContexts(m) && Owned(m) && Enabled(m, e)
    ensures OwnContexts(Apply(m, e))
  {
    ContextsStep(m, e);
    forall s | s in Apply(m, e).h.cancels ensures exists t :: OpensCall(Apply(m, e), t, s) {
      OpenCallsStep(m, e, s);
    }
  }

  lemma {:induction false} AlwaysOwnContexts(m: Mgr, es: seq<Event>)
    requires New(m) && Legal(m, es)
    ensures OwnContexts(RunAll(m, es))
  {
    if es != [] {
      AlwaysOwnContexts(m, Front(es));
      QuietAlways(m, Front(es));
      OwnContextsStep(RunAll(m, Front(es)), Last(es));
    }
  }

  /** A run loop's call is cancelled, and it has a stop: it will open no other. */
  ghost predicate Stopped(m: Mgr, t: nat, s: SessionId, ctx: Context) {
    && t in m.threads && m.threads[t].Loop? && m.threads[t].s == s && s in m.h.stop && ctx in m.h.cancelled
    && (m.threads[t].pc.InCall? ==> m.threads[t].pc.ctx == ctx)
  }

  predicate NoUnwind(es: seq<Event>, t: nat) {
    es != [] ==> NoUnwind(Front(es), t) && Last(es) != Unwind(t)
  }

  lemma {:induction false} StoppedStep(m: Mgr, e: Event, t: nat, s: SessionId, ctx: Context)
    requires Owned(m) && Stopped(m, t, s, ctx) && Enabled(m, e) && e != Unwind(t)
    ensures Stopped(Apply(m, e), t, s, ctx)
  {
    if e.Unwind? {
      OneOwner(m, t, e.t);
    }
  }

  lemma {:induction false} StaysStopped(m: Mgr, fs: seq<Event>, t: nat, s: SessionId, ctx: Context)
    requires Quiet(m) && Stopped(m, t, s, ctx) && Legal(m, fs) && NoUnwind(fs, t)
    ensures Quiet(RunAll(m, fs)) && Stopped(RunAll(m, fs), t, s, ctx)
  {
    if fs != [] {
      StaysStopped(m, Front(fs), t, s, ctx);
      QuietStep(RunAll(m, Front(fs)), Last(fs));
      StoppedStep(RunAll(m, Front(fs)), Last(fs), t, s, ctx);
    }
  }

  /** A user's stop cancels the session's open provider call, if there is one; until the run loop
      is gone it opens no other, in whatever continuation. */
  lemma {:induction false} StopCancelsTheCall(m: Mgr, es: seq<Event>, s: SessionId, t: nat, fs: seq<Event>)
    requires New(m) && Legal(m, es) && OpensCall(RunAll(m, es), t, s)
    requires Legal(Apply(RunAll(m, es), Stop(s)), fs) && NoUnwind(fs, t)
    ensures Stopped(RunAll(Apply(RunAll(m, es), Stop(s)), fs), t, s, RunAll(m, es).threads[t].pc.ctx)
  {
    QuietAlways(m, es);
    QuietStep(RunAll(m, es), Stop(s));
    StaysStopped(Apply(RunAll(m, es), Stop(s)), fs, t, s, RunAll(m, es).threads[t].pc.ctx);
  }

  /** And it cancels no other: neither another session's open call, nor one begun later. */
  lemma {:induction false} StopCancelsNoOther(m: Mgr, es: seq<Event>, s: SessionId, c: Context)
    requires New(m) && Legal(m, es) && c !in RunAll(m, es).h.cancelled
    ensures c in Apply(RunAll(m, es), Stop(s)).h.cancelled
       <==> exists t :: OpensCall(RunAll(m, es), t, s) && RunAll(m, es).threads[t].pc.ctx == c
    ensures c in Apply(RunAll(m, es), Stop(s)).h.cancelled ==> c < RunAll(m, es).h.begun
  {
    QuietAlways(m, es);
    AlwaysOwnContexts(m, es);
    var n := RunAll(m, es);
    if s in n.h.cancels && n.h.cancels[s] == c {
      var t :| OpensCall(n, t, s);
    }
  }

  /** A run loop with a stop leaves at its next step, and takes every trace of its run with it. */
  lemma {:induction false} StoppedLoopLeaves(m: Mgr, t: nat)
    requires Quiet(m) && t in m.threads && m.threads[t].Loop? && m.threads[t].pc.Top? && m.threads[t].s in m.h.stop
    ensures Enabled(m, Begin(t)) && Enabled(Apply(m, Begin(t)), Unwind(t))
    ensures var s, n := m.threads[t].s, Apply(Apply(m, Begin(t)), Unwind(t));
            && At(n, t, Ending) && s !in n.h.running && s !in n.h.cancels && s !in n.h.stop
            && n.h.begun == m.h.begun
            && forall u | u in n.threads :: !n.threads[u].Owns(s)
  {
    var s, n := m.threads[t].s, Apply(Apply(m, Begin(t)), Unwind(t));
    forall u | u in n.threads ensures !n.threads[u].Owns(s) {
      if u != t && n.threads[u].Owns(s) {
        OneOwner(m, t, u);
      }
    }
  }

  /** A stop from before does not hold a new run up: on an idle session, unless Close has marked the
      manager, a run that starts gets to open its call, with a context that is not cancelled. */
  lemma {:induction false} FreshRunCalls(m: Mgr, es: seq<Event>, t: nat, s: SessionId)
    requires New(m) && Legal(m, es) && Enabled(RunAll(m, es), Start(t, s)) && !RunAll(m, es).h.bgClosed
    ensures var n := RunAll(m, es);
            var fs := [Start(t, s), Spawn(t), Begin(t)];
            && Legal(n, fs) && OpensCall(RunAll(n, fs), t, s)
            && RunAll(n, fs).threads[t].pc.ctx !in RunAll(n, fs).h.cancelled
  {
    var n := RunAll(m, es);
    AlwaysOwnContexts(m, es);
    Extend(n, [], Start(t, s));
    assert [] + [Start(t, s)] == [Start(t, s)];
    Extend(n, [Start(t, s)], Spawn(t));
    assert [Start(t, s)] + [Spawn(t)] == [Start(t, s), Spawn(t)];
    Extend(n, [Start(t, s), Spawn(t)], Begin(t));
    assert [Start(t, s), Spawn(t)] + [Begin(t)] == [Start(t, s), Spawn(t), Begin(t)];
  }

  lemma {:induction false} LegalTake(m: Mgr, es: seq<Event>, i: nat)
    requires Legal(m, es) && i <= |es|
    ensures Legal(m, es[..i])
    decreases |es|
  {
    if i < |es| {
      LegalTake(m, Front(es), i);
      assert Front(es)[..i] == es[..i];
    } else {
      assert es[..i] == es;
    }
  }

  /** One step of a run further. */
  lemma {:induction false} LegalNext(m: Mgr, es: seq<Event>, i: nat)
    requires Legal(m, es) && i < |es|
    ensures Legal(m, es[..i]) && Legal(m, es[..i + 1])
    ensures Enabled(RunAll(m, es[..i]), es[i])
    ensures RunAll(m, es[..i + 1]) == Apply(RunAll(m, es[..i]), es[i])
  {
    LegalTake(m, es, i);
    LegalTake(m, es, i + 1);
    assert Front(es[..i + 1]) == es[..i] && Last(es[..i + 1]) == es[i];
  }

  lemma {:induction false} NoneTracked(m: Mgr)
    requires Counts(m)
    ensures (exists k | k in m.closers :: m.closers[k].Closed?) ==> m.h.bg == 0 && m.h.bgActive == 0
  {
    assert Live(m) <= Tracked(m);
  }

  // ---------- The manager itself ----------

  /** The manager's fields and the sections that change them. */
  class Manager {
    var bgClosed: bool
    var bg: int
    var bgActive: int
    var running: set<SessionId>
    var stopRequested: set<SessionId>
    var runningCancels: map<SessionId, Context>
    var cancelled: set<Context>
    var begun: nat

    function View(): Shared
      reads this
    {
      Shared(bgClosed, bg, bgActive, running, stopRequested, runningCancels, cancelled, begun)
    }

    constructor ()
      ensures View() == Shared(false, 0, 0, {}, {}, map[], {}, 0)
    {
      bgClosed, bg, bgActive := false, 0, 0;
      running, stopRequested, runningCancels, cancelled, begun := {}, {}, map[], {}, 0;
    }

    method GoBackground() returns (started: bool)
      modifies this`bg, this`bgActive
      ensures (View(), started) == GoSection(old(View()))
    {
      if bgClosed { return false; }
      bg := bg + 1;
      bgActive := bgActive + 1;
      return true;
    }

    method CloseMark() returns (first: bool)
      modifies this`bgClosed
      ensures (View(), first) == CloseSection(old(View()))
    {
      first := !bgClosed;
      bgClosed := true;
    }

    /** Visits every running session and every open call, in no particular order. */
    method CancelAllRuns()
      modifies this`stopRequested, this`cancelled
      ensures View() == SweepSection(old(View()))
    {
      var todo := running;
      while todo != {}
        invariant todo <= running
        invariant stopRequested == old(stopRequested) + (running - todo)
        invariant cancelled == old(cancelled)
        decreases |todo|
      {
        var s :| s in todo;
        stopRequested := stopRequested + {s};
        todo := todo - {s};
      }
      var calls := runningCancels.Keys;
      while calls != {}
        invariant calls <= runningCancels.Keys
        invariant stopRequested == old(stopRequested) + running
        invariant cancelled == old(cancelled) + (set s | s in runningCancels && s !in calls :: runningCancels[s])
        decreases |calls|
      {
        var s :| s in calls;
        cancelled := cancelled + {runningCancels[s]};
        calls := calls - {s};
      }
    }

    method StartRun(s: SessionId) returns (taken: bool)
      modifies this`running, this`stopRequested
      ensures taken <==> s !in old(running)
      ensures View() == StartSection(old(View()), s)
    {
      if s in running { return false; }
      stopRequested := stopRequested - {s};
      running := running + {s};
      return true;
    }

    method UndoStart(s: SessionId)
      modifies this`running
      ensures View() == UndoSection(old(View()), s)
    {
      running := running - {s};
    }

    method BeginLLMCall(s: SessionId) returns (ok: bool)
      modifies this`runningCancels, this`begun
      ensures (View(), ok) == BeginSection(old(View()), s)
    {
      if s in stopRequested { return false; }
      runningCancels := runningCancels[s := begun];
      begun := begun + 1;
      return true;
    }

    method FinishLLMCall(s: SessionId)
      modifies this`runningCancels
      ensures View() == FinishSection(old(View()), s)
    {
      runningCancels := runningCancels - {s};
    }

    method UnwindRun(s: SessionId)
      modifies this`running, this`runningCancels, this`stopRequested, this`cancelled
      ensures View() == UnwindSection(old(View()), s)
    {
      if s in runningCancels {
        cancelled := cancelled + {runningCancels[s]};
      }
      running := running - {s};
      runningCancels := runningCancels - {s};
      stopRequested := stopRequested - {s};
    }

    method StopSession(s: SessionId)
      modifies this`stopRequested, this`cancelled
      ensures View() == StopSection(old(View()), s)
    {
      stopRequested := stopRequested + {s};
      if s in runningCancels {
        cancelled := cancelled + {runningCancels[s]};
      }
    }

    // ---------- The manager in a run ----------

    /** What a thread does to the manager in one step of a run. */
    method Perform(m: Mgr, e: Event)
      requires View() == m.h && Enabled(m, e)
      modifies this
      ensures View() == Apply(m, e).h
    {
      match e {
        case Start(_, s) => var _ := StartRun(s);
        case Spawn(_) => var _ := GoBackground();
        case Undo(t) => UndoStart(m.threads[t].s);
        case SpawnTask(_) => var _ := GoBackground();
        case Begin(t) => var _ := BeginLLMCall(m.threads[t].s);
        case Finish(t) => FinishLLMCall(m.threads[t].s);
        case Unwind(t) => UnwindRun(m.threads[t].s);
        case CountDown(_) => bgActive := bgActive - 1;
        case Done(_) => bg := bg - 1;
        case Stop(s) => StopSession(s);
        case CloseCall(_) => var _ := CloseMark();
        case Sweep(_) => CancelAllRuns();
        case TaskEnds(_) =>
        case Leave(_) =>
        case CloseReturns(_) =>
        case CloseGivesUp(_) =>
      }
    }

    /** A new manager taken through a whole run, whatever the order of its threads' steps: its
        fields are the run's, it counts exactly the goroutines that are there, after Close it
        counts none, and after the sweep every run loop's session has its stop. */
    static method Replay(es: seq<Event>) returns (mgr: Manager)
      requires Legal(NewMgr(), es)
      ensures fresh(mgr)
      ensures var m := RunAll(NewMgr(), es);
              && mgr.View() == m.h
              && mgr.bg == |Tracked(m)| && mgr.bgActive == |Live(m)|
              && ((exists k | k in m.closers :: m.closers[k].Closed?) ==> mgr.bg == 0 && mgr.bgActive == 0)
              && (m.swept ==> forall t | t in m.threads && m.threads[t].Loop? :: m.threads[t].s in mgr.stopRequested)
    {
      mgr := new Manager();
      var m := NewMgr();
      for i := 0 to |es|
        invariant fresh(mgr) && Legal(NewMgr(), es[..i])
        invariant m == RunAll(NewMgr(), es[..i]) && mgr.View() == m.h
      {
        LegalNext(NewMgr(), es, i);
        mgr.Perform(m, es[i]);
        m := Apply(m, es[i]);
      }
      assert es[..|es|] == es;
      CountsAlways(NewMgr(), es);
      QuietAlways(NewMgr(), es);
      NoneTracked(m);
    }
  }
}
