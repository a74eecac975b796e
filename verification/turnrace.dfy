/** The stop race inside the runs of a session: between the mark and the clear of one tool call,
    other threads stop the session, start run loops, let them leave, rewind and speak. */
module TurnRace {
  import opened Common
  import opened Transcript
  import opened Controls
  import opened StopRace
  import opened Turns

  /** A tool call just marked as running. */
  ghost predicate JustMarked(w: World) {
    && w.owner.Works() && w.work.InTool? && w.work.tc.name != TASKS
    && w.ctl.tool == Some(w.work.tc) && !w.ctl.stop && w.work.tc.id !in w.ctl.interrupted
  }

  predicate NoMoves(es: seq<Event>) {
    forall e | e in es :: !e.Working?
  }

  /** What a step of another thread is in the stop race. */
  function OtherOf(e: Event): Option<Other> {
    match e
    case StopNow => Some(Other.Stop)
    case Start => Some(Other.Start)
    case Exit => Some(Other.Unwind)
    case _ => None
  }

  function Others(es: seq<Event>): seq<Other> {
    if es == [] then []
    else if OtherOf(Last(es)).None? then Others(Front(es))
    else Others(Front(es)) + [OtherOf(Last(es)).value]
  }

  /** The stops that were handed a call to report. */
  ghost function Claims(w: World, es: seq<Event>): nat
    requires Legal(w, es)
  {
    if es == [] then 0
    else
      Claims(w, Front(es))
      + (if Last(es).StopNow? && StopSection(RunAll(w, Front(es)).ctl).1.Some? then 1 else 0)
  }

  /** The flags the race is about. */
  predicate Same(a: Flags, b: Flags) {
    a.stop == b.stop && a.tool == b.tool && a.interrupted == b.interrupted
  }

  lemma {:induction false} OtherStep(v: World, c: Flags, e: Event)
    requires v.owner.Works() && v.work.InTool? && Same(v.ctl, c) && Enabled(v, e) && !e.Working?
    ensures Apply(v, e).work == v.work && Apply(v, e).owner == v.owner
    ensures Same(Apply(v, e).ctl, if OtherOf(e).Some? then Do(c, OtherOf(e).value) else c)
  {
    WorkStays(v, e);
    if OtherOf(e).Some? {
      RacingStep(v, c, e);
    } else {
      FlagsStay(v, e);
    }
  }

  lemma {:induction false} WorkStays(v: World, e: Event)
    requires v.owner.Works() && v.work.InTool? && Enabled(v, e) && !e.Working?
    ensures Apply(v, e).work == v.work && Apply(v, e).owner == v.owner
  {
    if e.Send? || e.Force? || e.Rewind? || e.Reply? || e.StopReport? || e.Resumed? || e.Row? {
      WorkStaysSpoken(v, e);
    } else {
      WorkStaysQuiet(v, e);
    }
  }

  lemma {:induction false} WorkStaysSpoken(v: World, e: Event)
    requires v.owner.Works() && v.work.InTool? && Enabled(v, e)
    requires e.Send? || e.Force? || e.Rewind? || e.Reply? || e.StopReport? || e.Resumed? || e.Row?
    ensures Apply(v, e).work == v.work && Apply(v, e).owner == v.owner
  {
  }

  lemma {:induction false} WorkStaysQuiet(v: World, e: Event)
    requires v.owner.Works() && v.work.InTool? && Enabled(v, e) && !e.Working?
    requires !e.Send? && !e.Force? && !e.Rewind? && !e.Reply? && !e.StopReport? && !e.Resumed? && !e.Row?
    ensures Apply(v, e).work == v.work && Apply(v, e).owner == v.owner
  {
  }

  lemma {:induction false} RacingStep(v: World, c: Flags, e: Event)
    requires Same(v.ctl, c) && Enabled(v, e) && OtherOf(e).Some?
    ensures Same(Apply(v, e).ctl, Do(c, OtherOf(e).value))
  {
  }

  lemma {:induction false} FlagsStay(v: World, e: Event)
    requires v.owner.Works() && Enabled(v, e) && !e.Working? && OtherOf(e).None?
    ensures Same(Apply(v, e).ctl, v.ctl)
  {
  }

  /** The run is a run of the race. */
  lemma {:induction false} RunIsRace(w: World, es: seq<Event>)
    requires JustMarked(w) && Legal(w, es) && NoMoves(es)
    ensures RunAll(w, es).work == w.work && RunAll(w, es).owner == w.owner
    ensures Same(RunAll(w, es).ctl, After(w.ctl, Others(es)))
  {
    if es != [] {
      var most, e := Front(es), Last(es);
      assert e in es && forall x | x in most :: x in es;
      RunIsRace(w, most);
      assert es == most + [e];
      OneMoreOther(w.ctl, most, e);
      OtherStep(RunAll(w, most), After(w.ctl, Others(most)), e);
    }
  }

  lemma {:induction false} OneMoreOther(c: Flags, es: seq<Event>, e: Event)
    ensures After(c, Others(es + [e]))
         == if OtherOf(e).Some? then Do(After(c, Others(es)), OtherOf(e).value) else After(c, Others(es))
  {
    assert Front(es + [e]) == es;
    if OtherOf(e).Some? {
      assert Front(Others(es) + [OtherOf(e).value]) == Others(es);
    }
  }

  /** The call as it was before the mark. */
  function Unmarked(w: World): Flags {
    w.ctl.(tool := None)
  }

  /** A stop would claim a call exactly when it would claim the marked one in the race. */
  lemma {:induction false} SameClaim(w: World, es: seq<Event>)
    requires JustMarked(w) && Legal(w, es) && NoMoves(es)
    ensures StopSection(RunAll(w, es).ctl).1.Some? <==> StopSection(After(w.ctl, Others(es))).1 == Some(w.work.tc)
  {
    RunIsRace(w, es);
    RaceState(Unmarked(w), Others(es), w.work.tc);
    assert MarkSection(Unmarked(w), w.work.tc).0 == w.ctl;
  }

  lemma {:induction false} SameClaims(w: World, es: seq<Event>)
    requires JustMarked(w) && Legal(w, es) && NoMoves(es)
    ensures Claims(w, es) == StopClaims(w.ctl, Others(es), w.work.tc)
  {
    if es != [] {
      var most, e := Front(es), Last(es);
      assert e in es && forall x | x in most :: x in es;
      SameClaims(w, most);
      SameClaim(w, most);
      OneMoreClaim(w.ctl, Others(most), w.work.tc, e, Others(es));
    }
  }

  lemma {:induction false} OneMoreClaim(c: Flags, os: seq<Other>, tc: ToolCall, e: Event, next: seq<Other>)
    requires next == if OtherOf(e).Some? then os + [OtherOf(e).value] else os
    ensures StopClaims(c, next, tc)
         == StopClaims(c, os, tc) + if e.StopNow? && StopSection(After(c, os)).1 == Some(tc) then 1 else 0
  {
    if OtherOf(e).Some? {
      assert Front(next) == os;
    }
  }

  /** While a tool runs, whatever other threads do, at most one of its thread and the stops
      owns its result; and nobody does exactly when each stop came after a run loop had
      unwound and one is still in force. */
  lemma {:induction false} OneReportsIff(w: World, es: seq<Event>)
    requires JustMarked(w) && Legal(w, es) && NoMoves(es)
    ensures var v, os := RunAll(w, es), Others(es);
            && CanMove(v, Clear) && Claims(w, es) <= 1
            && var keeps := ApplyMove(v, Clear).work == Won(w.work.tc, w.work.rest);
               && (keeps || ApplyMove(v, Clear).work == Clearing(w.work.tc, w.work.rest))
               && !(keeps && Claims(w, es) == 1)
               && (!keeps && Claims(w, es) == 0 <==> NoEarlyStop(os) && StopInForce(os))
  {
    RunIsRace(w, es);
    SameClaims(w, es);
    OneOwner(Unmarked(w), Others(es), w.work.tc);
    KeepsIff(w, es);
  }

  /** The thread keeps its right in the run exactly when it does in the race. */
  lemma {:induction false} KeepsIff(w: World, es: seq<Event>)
    requires JustMarked(w) && Legal(w, es) && NoMoves(es)
    ensures var v := RunAll(w, es);
            && CanMove(v, Clear)
            && ApplyMove(v, Clear).work == if ToolClaims(w.ctl, Others(es), w.work.tc) then Won(w.work.tc, w.work.rest)
                                           else Clearing(w.work.tc, w.work.rest)
  {
    RunIsRace(w, es);
  }

  /** With no run loop leaving meanwhile exactly one of them does: a stop if there is one, and
      then only the first. */
  lemma {:induction false} ExactlyOneReports(w: World, es: seq<Event>)
    requires JustMarked(w) && Legal(w, es) && NoMoves(es) && Exit !in es
    ensures var v := RunAll(w, es);
            && CanMove(v, Clear)
            && ApplyMove(v, Clear).work == (if StopNow in es then Clearing(w.work.tc, w.work.rest)
                                            else Won(w.work.tc, w.work.rest))
            && Claims(w, es) == (if StopNow in es then 1 else 0)
  {
    OthersHave(es);
    SameClaims(w, es);
    ExactlyOneOwner(Unmarked(w), Others(es), w.work.tc);
    KeepsIff(w, es);
  }

  lemma {:induction false} OthersHave(es: seq<Event>)
    ensures Other.Stop in Others(es) <==> StopNow in es
    ensures Other.Unwind in Others(es) <==> Exit in es
    ensures Other.Shut !in Others(es)
  {
    if es != [] {
      OthersHave(Front(es));
      assert es == Front(es) + [Last(es)];
    }
  }

  /** When the user's answer started the tool before the paused run loop was gone, its
      unwind and a stop after it leave the call with nobody to report it. */
  lemma {:induction false} NobodyReports(w: World)
    requires JustMarked(w) && w.run.Leaving?
    ensures Enabled(w, Exit) && Enabled(Apply(w, Exit), StopNow)
    ensures var v := Apply(Apply(w, Exit), StopNow);
            && CanMove(v, Clear) && ApplyMove(v, Clear).work == Clearing(w.work.tc, w.work.rest)
            && StopSection(Apply(w, Exit).ctl).1 == None
            && v.late == w.late && v.sess == w.sess
  {
  }
}
