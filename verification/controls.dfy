/** The flags a session's threads race over: whether a run loop owns the session, whether a
    stop was asked for, which tool call is running, and which calls a stop has claimed. */
module Controls {
  import opened Common
  import opened Transcript

  datatype Flags = Flags(running: bool, stop: bool, tool: Option<ToolCall>, interrupted: set<string>)

  const TASKS := "CreateTasks"
  const QUESTION := "ask_user_question"

  /** StopSession's section: the stop is asked for, and an ordinary running tool that no
      stop has claimed yet is claimed. */
  function StopSection(c: Flags): (Flags, Option<ToolCall>) {
    if c.tool.Some? && c.tool.value.name != TASKS && c.tool.value.id !in c.interrupted then
      (c.(stop := true, interrupted := c.interrupted + {c.tool.value.id}), c.tool)
    else
      (c.(stop := true), None)
  }

  function MarkSection(c: Flags, tc: ToolCall): (Flags, bool) {
    if c.stop then (c, false) else (c.(tool := Some(tc)), true)
  }

  /** clearRunningTool; the flag says the caller lost the call to a stop. */
  function ClearSection(c: Flags, id: string): (Flags, bool) {
    (c.(tool := if c.tool.Some? && c.tool.value.id == id then None else c.tool,
        interrupted := c.interrupted - {id}),
     id in c.interrupted || c.stop)
  }

  /** startRun's section, when no run loop owns the session. */
  function StartSection(c: Flags): Flags {
    c.(running := true, stop := false)
  }

  /** What a run loop's goroutine does on its way out. */
  function UnwindSection(c: Flags): Flags {
    c.(running := false, stop := false, tool := None)
  }

  /** Close's reach into a session that a run loop owns. */
  function CloseSection(c: Flags): Flags {
    c.(stop := true)
  }
}

/** The race between a running tool and the stops that want to interrupt it. */
module StopRace {
  import opened Common
  import opened Transcript
  import opened Controls

  /** What other threads may do to the session while one call runs.  `Start` is startRun
      taking an idle session, `Unwind` a run loop leaving, `Shut` Close reaching a session
      that a run loop owns. */
  datatype Other = Stop | Start | Unwind | Shut

  function Do(c: Flags, e: Other): Flags {
    match e
    case Stop => StopSection(c).0
    case Start => StartSection(c)
    case Unwind => UnwindSection(c)
    case Shut => CloseSection(c)
  }

  function After(c: Flags, es: seq<Other>): Flags {
    if es == [] then c else Do(After(c, Front(es)), Last(es))
  }

  /** How many of the stops were handed this call to append its result. */
  function StopClaims(c: Flags, es: seq<Other>, tc: ToolCall): nat {
    if es == [] then 0
    else
      StopClaims(c, Front(es), tc)
      + (if Last(es).Stop? && StopSection(After(c, Front(es))).1 == Some(tc) then 1 else 0)
  }

  /** Whether the thread that ran the tool keeps the right to append its result. */
  predicate ToolClaims(c: Flags, es: seq<Other>, tc: ToolCall) {
    !ClearSection(After(c, es), tc.id).1
  }

  /** No stop came while the call was still registered as running. */
  ghost predicate NoEarlyStop(es: seq<Other>) {
    forall k | 0 <= k < |es| && es[k].Stop? :: exists j :: 0 <= j < k && es[j].Unwind?
  }

  ghost predicate StopsAt(es: seq<Other>, k: nat) {
    k < |es| && (es[k].Stop? || es[k].Shut?) && forall j | k < j < |es| :: !es[j].Start? && !es[j].Unwind?
  }

  /** A stop is still in force when the tool returns. */
  ghost predicate StopInForce(es: seq<Other>) {
    exists k: nat :: StopsAt(es, k)
  }

  /** A call about to run: no stop pending, and an id no stop has claimed. */
  predicate Ready(c: Flags, tc: ToolCall) {
    !c.stop && tc.name != TASKS && tc.id !in c.interrupted
  }

  lemma {:induction false} StopState(c: Flags, es: seq<Other>)
    requires !c.stop
    ensures After(c, es).stop <==> StopInForce(es)
  {
    if es != [] {
      var f := Front(es);
      StopState(c, f);
      assert es == f + [Last(es)];
      if StopInForce(f) && !Last(es).Start? && !Last(es).Unwind? {
        var k: nat :| StopsAt(f, k);
        assert StopsAt(es, k);
      }
      if Last(es).Stop? || Last(es).Shut? {
        assert StopsAt(es, |f|);
      }
      if StopInForce(es) {
        var k: nat :| StopsAt(es, k);
        if k < |f| {
          assert StopsAt(f, k);
          assert !es[|f|].Start? && !es[|f|].Unwind?;
        }
      }
    }
  }

  lemma {:induction false} EarlyStopNext(f: seq<Other>, e: Other)
    ensures NoEarlyStop(f + [e]) <==> NoEarlyStop(f) && (e.Stop? ==> Unwind in f)
  {
    var es := f + [e];
    if NoEarlyStop(es) {
      forall k | 0 <= k < |f| && f[k].Stop? ensures exists j :: 0 <= j < k && f[j].Unwind? {
        assert es[k].Stop?;
        var j :| 0 <= j < k && es[j].Unwind?;
        assert f[j].Unwind?;
      }
      if e.Stop? {
        assert es[|f|].Stop?;
        var j :| 0 <= j < |f| && es[j].Unwind?;
        assert f[j] == Unwind;
      }
    }
    if NoEarlyStop(f) && (e.Stop? ==> Unwind in f) {
      forall k | 0 <= k < |es| && es[k].Stop? ensures exists j :: 0 <= j < k && es[j].Unwind? {
        if k < |f| {
          assert f[k].Stop?;
          var j :| 0 <= j < k && f[j].Unwind?;
          assert es[j].Unwind?;
        } else {
          var j :| 0 <= j < |f| && f[j] == Unwind;
          assert es[j].Unwind?;
        }
      }
    }
  }

  lemma {:induction false} RaceState(c: Flags, es: seq<Other>, tc: ToolCall)
    requires Ready(c, tc)
    ensures var m := MarkSection(c, tc).0;
            var a := After(m, es);
            && (tc.id in a.interrupted <==> !NoEarlyStop(es))
            && a.tool == (if Unwind in es then None else Some(tc))
            && StopClaims(m, es, tc) == (if tc.id in a.interrupted then 1 else 0)
  {
    if es != [] {
      RaceState(c, Front(es), tc);
      assert es == Front(es) + [Last(es)];
      EarlyStopNext(Front(es), Last(es));
    }
  }

  /** Whatever the interleaving, the call's result has at most one owner; and it has
      exactly one unless a run loop unwound (or Close reached the session) under the
      running tool and a stop that could not see the tool is still in force. */
  lemma {:induction false} OneOwner(c: Flags, es: seq<Other>, tc: ToolCall)
    requires Ready(c, tc)
    ensures var m := MarkSection(c, tc).0;
            && !(StopClaims(m, es, tc) >= 1 && ToolClaims(m, es, tc))
            && StopClaims(m, es, tc) <= 1
            && (StopClaims(m, es, tc) == 0 && !ToolClaims(m, es, tc) <==> NoEarlyStop(es) && StopInForce(es))
  {
    RaceState(c, es, tc);
    StopState(MarkSection(c, tc).0, es);
  }

  /** With no run loop leaving and no Close in between, exactly one of the tool's thread and
      the stops -- any number of them -- gets to append the result: a stop exactly when
      there was one. */
  lemma {:induction false} ExactlyOneOwner(c: Flags, es: seq<Other>, tc: ToolCall)
    requires Ready(c, tc) && Unwind !in es && Shut !in es
    ensures var m := MarkSection(c, tc).0;
            && StopClaims(m, es, tc) == (if Stop in es then 1 else 0)
            && (ToolClaims(m, es, tc) <==> Stop !in es)
  {
    RaceState(c, es, tc);
    StopState(MarkSection(c, tc).0, es);
    assert forall k | 0 <= k < |es| :: es[k] in es && !es[k].Unwind? && !es[k].Shut?;
    assert StopInForce(es) ==> Stop in es;
    if Stop in es {
      var k :| 0 <= k < |es| && es[k] == Stop;
      assert es[k].Stop?;
    }
  }

  /** A run loop that is still leaving when the user's approval starts the tool: its unwind
      forgets the tool, so a later stop neither interrupts the call nor lets it report. */
  lemma {:induction false} NobodyOwns(c: Flags, tc: ToolCall)
    requires Ready(c, tc)
    ensures var m := MarkSection(c, tc).0;
            StopClaims(m, [Unwind, Stop], tc) == 0 && !ToolClaims(m, [Unwind, Stop], tc)
  {
    var es := [Unwind, Stop];
    assert Front(es) == [Unwind] && Front([Unwind]) == [];
    assert es[0].Unwind?;
    assert StopsAt(es, 1);
    OneOwner(c, es, tc);
  }

  /** The clear that executeToolCall defers finds nothing left to do, whatever other
      threads did since the first one. */
  lemma {:induction false} SecondClearIsIdle(c: Flags, es: seq<Other>, tc: ToolCall)
    ensures var a := After(ClearSection(c, tc.id).0, es);
            ClearSection(a, tc.id).0 == a
  {
    ClearedStays(ClearSection(c, tc.id).0, es, tc.id);
  }

  lemma {:induction false} ClearedStays(c: Flags, es: seq<Other>, id: string)
    requires id !in c.interrupted && (c.tool.Some? ==> c.tool.value.id != id)
    ensures id !in After(c, es).interrupted
    ensures After(c, es).tool.Some? ==> After(c, es).tool.value.id != id
  {
    if es != [] {
      ClearedStays(c, Front(es), id);
    }
  }
}
