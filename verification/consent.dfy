/** What the user decides and what comes of it: a tool runs only where the policy or the user let
    it, a call the user declines or answers for gets exactly that as its result, a session that
    waits for the user sends nothing, and a stop is obeyed. */
module Consent {
  import opened Common
  import opened Transcript
  import opened Sessions
  import opened Controls
  import opened Turns
  import Runs = ProviderRuns

  // ---------- What may run ----------

  /** The calls that the policy permitted or the user approved in a run. */
  ghost function Permitted(w: World, es: seq<Event>): set<ToolCall>
    requires Legal(w, es)
  {
    if es == [] then {} else Permitted(w, Front(es)) + PermittedBy(RunAll(w, Front(es)), Last(es))
  }

  ghost function PermittedBy(v: World, e: Event): set<ToolCall>
    requires Enabled(v, e)
  {
    match e
    case Approve(i) => {v.sess.approvals[i].call}
    case Working(m) => if m.Permit? then {v.work.tc} else {}
    case _ => {}
  }

  /** On its way into a tool or a task group, inside, or just out of it. */
  predicate Executes(w: World) {
    w.owner.Works() && (w.work.Allowed? || w.work.Entered? || w.work.InTool? || w.work.InTasks? || w.work.Won?)
  }

  lemma {:induction false} ExecutesNext(v: World, e: Event)
    requires Enabled(v, e) && Executes(Apply(v, e))
    ensures Apply(v, e).work.tc in PermittedBy(v, e) || (Executes(v) && Apply(v, e).work.tc == v.work.tc)
  {
    if e.Working? {
      MoveExecutes(v, e.move);
      WorkingIsMove(v, e.move);
    } else {
      OtherExecutes(v, e);
    }
  }

  lemma {:induction false} MoveExecutes(v: World, m: Move)
    requires v.owner.Works() && CanMove(v, m) && Executes(ApplyMove(v, m))
    ensures m.Permit? || (Executes(v) && ApplyMove(v, m).work.tc == v.work.tc)
    ensures m.Permit? ==> ApplyMove(v, m).work.tc == v.work.tc
  {
  }

  lemma {:induction false} OtherExecutes(v: World, e: Event)
    requires Enabled(v, e) && !e.Working? && Executes(Apply(v, e))
    ensures Apply(v, e).work.tc in PermittedBy(v, e) || (Executes(v) && Apply(v, e).work.tc == v.work.tc)
  {
  }

  /** A call is executed only if the policy permitted it or the user approved it, in every run and
      whatever other threads do. */
  lemma {:induction false} RunsOnlyIfPermitted(w: World, es: seq<Event>)
    requires AtRest(w) && Legal(w, es) && Executes(RunAll(w, es))
    ensures RunAll(w, es).work.tc in Permitted(w, es)
  {
    if es != [] {
      ExecutesNext(RunAll(w, Front(es)), Last(es));
      if Executes(RunAll(w, Front(es))) {
        RunsOnlyIfPermitted(w, Front(es));
      }
    }
  }

  /** The steps of the run loop. */
  predicate IsRunLoops(e: Event) {
    || e.Start? || e.Spawned? || e.Refused? || e.Head? || e.Load? || e.Begin? || e.Return? || e.Fail? || e.Check?
    || e.Reply? || e.WorkDrained? || e.WorkHalted? || e.Exit?
  }

  // ---------- A call the user declined or answered for ----------

  /** What a run's working threads append to the provider's transcript. */
  ghost function Reported(w: World, es: seq<Event>): seq<Message>
    requires Legal(w, es)
  {
    if es == [] then []
    else Reported(w, Front(es)) + if Last(es).Working? then Appended(RunAll(w, Front(es)), Last(es)) else []
  }

  ghost function Appended(v: World, e: Event): seq<Message>
    requires Enabled(v, e)
  {
    var before, after := v.sess.llm, Apply(v, e).sess.llm;
    if |before| <= |after| then after[|before|..] else []
  }

  predicate StillAnswering(es: seq<Event>) {
    es != [] ==> StillAnswering(Front(es)) && !Last(es).FirstDone?
  }

  /** The user's own words for a call, or that they declined it. */
  predicate Says(v: World, e: Event, text: string) {
    (e.Decline? && text == "User declined this tool call.") || (e.Answer? && text == e.text)
  }

  /** The thread has yet to report the call, or has reported it and nothing else. */
  ghost predicate Answers(v: World, tc: ToolCall, text: string, reported: seq<Message>) {
    && v.owner == First(tc)
    && ((v.work.Answering? && v.work.tc == tc && v.work.rest == [] && v.work.text == text && reported == [])
        || (v.work == Settled(tc, []) && reported == [Tool(tc.id, text)]))
  }

  lemma {:induction false} AnswersMove(v: World, m: Move, tc: ToolCall, text: string, reported: seq<Message>)
    requires Answers(v, tc, text, reported) && CanMove(v, m)
    ensures m.Deliver? && ApplyMove(v, m).owner == v.owner && ApplyMove(v, m).work == Settled(tc, [])
    ensures ApplyMove(v, m).sess.llm == v.sess.llm + [Tool(tc.id, text)] && reported == []
  {
  }

  lemma {:induction false} AnswersOther(v: World, e: Event)
    requires v.owner.First? && Enabled(v, e) && !e.Working? && !e.FirstDone?
    ensures Apply(v, e).owner == v.owner && Apply(v, e).work == v.work
  {
    if IsRunLoops(e) {
      AnswersRunLoop(v, e);
    } else {
      AnswersElse(v, e);
    }
  }

  lemma {:induction false} AnswersRunLoop(v: World, e: Event)
    requires v.owner.First? && Enabled(v, e) && IsRunLoops(e)
    ensures Apply(v, e).owner == v.owner && Apply(v, e).work == v.work
  {
  }

  lemma {:induction false} AnswersElse(v: World, e: Event)
    requires v.owner.First? && Enabled(v, e) && !IsRunLoops(e) && !e.Working? && !e.FirstDone?
    ensures Apply(v, e).owner == v.owner && Apply(v, e).work == v.work
  {
  }

  lemma {:induction false} AnswersNext(v: World, e: Event, tc: ToolCall, text: string, reported: seq<Message>)
    requires Answers(v, tc, text, reported) && Enabled(v, e) && !e.FirstDone?
    ensures Answers(Apply(v, e), tc, text, reported + if e.Working? then Appended(v, e) else [])
  {
    if e.Working? {
      AnswersMove(v, e.move, tc, text, reported);
      WorkingIsMove(v, e.move);
      assert Appended(v, e) == [Tool(tc.id, text)] && [] + [Tool(tc.id, text)] == [Tool(tc.id, text)];
    } else {
      AnswersOther(v, e);
      assert reported + [] == reported;
    }
  }

  /** The call that an answer is about. */
  function CallOf(u: World, e: Event): ToolCall
    requires if e.Answer? then e.i < |u.sess.questions| else e.Approve? || e.Decline?
    requires e.Approve? || e.Decline? ==> e.i < |u.sess.approvals|
  {
    if e.Answer? then u.sess.questions[e.i].call else u.sess.approvals[e.i].call
  }

  /** A call the user declines, or answers for, is never run: until the answering thread goes on to
      the queue it is neither on its way into a tool nor in one, the only thing that the thread
      reports is one result, with the call's id and the user's words, and when it goes on it has
      reported that. */
  lemma {:induction false} DecidedCallIsAnswered(u: World, answer: Event, text: string, fs: seq<Event>)
    requires Enabled(u, answer) && Says(u, answer, text)
    requires Legal(Apply(u, answer), fs) && StillAnswering(fs)
    ensures var v, reported := RunAll(Apply(u, answer), fs), Reported(Apply(u, answer), fs);
            var result := Tool(CallOf(u, answer).id, text);
            && v.owner == First(CallOf(u, answer)) && !Executes(v)
            && (reported == [] || reported == [result])
            && (if Enabled(v, FirstDone) then reported == [result] else Enabled(v, Working(Deliver)))
  {
    DecidedCall(u, answer, text, fs);
  }

  lemma {:induction false} DecidedCall(u: World, answer: Event, text: string, fs: seq<Event>)
    requires Enabled(u, answer) && Says(u, answer, text)
    requires Legal(Apply(u, answer), fs) && StillAnswering(fs)
    ensures Answers(RunAll(Apply(u, answer), fs), CallOf(u, answer), text, Reported(Apply(u, answer), fs))
  {
    if fs == [] {
      AnswerBegins(u, answer, text);
    } else {
      DecidedCall(u, answer, text, Front(fs));
      AnswersNext(RunAll(Apply(u, answer), Front(fs)), Last(fs), CallOf(u, answer), text,
                  Reported(Apply(u, answer), Front(fs)));
    }
  }

  lemma {:induction false} AnswerBegins(u: World, answer: Event, text: string)
    requires Enabled(u, answer) && Says(u, answer, text)
    ensures Answers(Apply(u, answer), CallOf(u, answer), text, [])
  {
  }

  /** An answer takes out exactly the approval or question it is about, and the others keep their
      order. */
  lemma {:induction false} AnswerTakesItsOwn(u: World, answer: Event)
    requires Enabled(u, answer) && (answer.Approve? || answer.Decline? || answer.Answer?)
    ensures var before, after := u.sess, Apply(u, answer).sess;
            if answer.Answer? then
              && after.approvals == before.approvals && |after.questions| == |before.questions| - 1
              && forall j | 0 <= j < |after.questions| ::
                   after.questions[j] == before.questions[if j < answer.i then j else j + 1]
            else
              && after.questions == before.questions && |after.approvals| == |before.approvals| - 1
              && forall j | 0 <= j < |after.approvals| ::
                   after.approvals[j] == before.approvals[if j < answer.i then j else j + 1]
  {
  }

  // ---------- A session that waits for the user ----------

  predicate NoAnswerOrRewind(e: Event) {
    !e.Approve? && !e.Decline? && !e.Answer? && !e.Rewind?
  }

  predicate NoneAnsweredOrRewound(es: seq<Event>) {
    es != [] ==> NoneAnsweredOrRewound(Front(es)) && NoAnswerOrRewind(Last(es))
  }

  /** Something waits, and no request is on its way. */
  predicate Silent(w: World) {
    w.sess.Waiting() && !w.run.Committed()
  }

  lemma {:induction false} WaitingStays(v: World, e: Event)
    requires v.sess.Waiting() && Enabled(v, e) && NoAnswerOrRewind(e)
    ensures Apply(v, e).sess.Waiting()
  {
    if e.Working? {
      WaitingMove(v, e.move);
    }
  }

  lemma {:induction false} WaitingMove(v: World, m: Move)
    requires v.sess.Waiting() && CanMove(v, m)
    ensures ApplyMove(v, m).sess.Waiting() && ApplyMove(v, m).run == v.run
  {
  }

  lemma {:induction false} SilentNext(v: World, e: Event)
    requires Silent(v) && Enabled(v, e) && NoAnswerOrRewind(e)
    ensures !Apply(v, e).run.Committed()
  {
    if e.Working? {
      WaitingMove(v, e.move);
    }
  }

  /** While an approval or a question waits, no run loop copies the transcript or calls the
      provider, whoever starts one and whatever else happens, until it is answered or rewound. */
  lemma {:induction false} WaitingSessionIsSilent(w: World, es: seq<Event>)
    requires Silent(w) && Legal(w, es) && NoneAnsweredOrRewound(es)
    ensures Silent(RunAll(w, es))
  {
    if es != [] {
      WaitingSessionIsSilent(w, Front(es));
      WaitingStays(RunAll(w, Front(es)), Last(es));
      SilentNext(RunAll(w, Front(es)), Last(es));
    }
  }

  // ---------- A stop ----------

  /** Steps that clear a stop: a run loop leaves, or one starts on an idle session. */
  predicate ClearsStop(v: World, e: Event) {
    e.Exit? || e.Start? || (e.Restart? && !v.ctl.running)
  }

  /** No step of the run clears the stop. */
  ghost predicate StopHolds(w: World, es: seq<Event>)
    requires Legal(w, es)
  {
    es != [] ==> StopHolds(w, Front(es)) && !ClearsStop(RunAll(w, Front(es)), Last(es))
  }

  /** What was under way when the stop came may go on; nothing new begins. */
  ghost predicate NothingBegun(w: World, v: World) {
    && v.ctl.stop
    && (v.owner.Works() && v.work.InTool? ==> w.owner.Works() && w.work.InTool? && v.work.tc == w.work.tc)
    && (v.owner.Works() && v.work.InTasks? ==> w.owner.Works() && w.work.InTasks? && v.work.tc == w.work.tc)
    && (v.run.Loading? ==> w.run.Loading?)
    && (v.run.Calling? ==> v.run == w.run)
    && (v.run.Checked? ==> w.run.Checked?)
  }

  lemma {:induction false} StopMove(v: World, m: Move)
    requires v.ctl.stop && v.owner.Works() && CanMove(v, m)
    ensures ApplyMove(v, m).ctl.stop && ApplyMove(v, m).run == v.run
    ensures !ApplyMove(v, m).work.InTool? && !ApplyMove(v, m).work.InTasks?
  {
  }

  lemma {:induction false} StopOther(v: World, e: Event)
    requires v.ctl.stop && Enabled(v, e) && !e.Working? && !ClearsStop(v, e)
    ensures var n := Apply(v, e);
            && n.ctl.stop && (n.run.Loading? ==> v.run.Loading?)
            && (n.run.Calling? ==> n.run == v.run) && (n.run.Checked? ==> v.run.Checked?)
  {
    if IsRunLoops(e) {
      StopRunLoop(v, e);
    } else {
      StopElse(v, e);
    }
  }

  lemma {:induction false} StopRunLoop(v: World, e: Event)
    requires v.ctl.stop && Enabled(v, e) && IsRunLoops(e) && !ClearsStop(v, e)
    ensures var n := Apply(v, e);
            && n.ctl.stop && (n.run.Loading? ==> v.run.Loading?)
            && (n.run.Calling? ==> n.run == v.run) && (n.run.Checked? ==> v.run.Checked?)
  {
  }

  lemma {:induction false} StopElse(v: World, e: Event)
    requires v.ctl.stop && Enabled(v, e) && !IsRunLoops(e) && !e.Working? && !ClearsStop(v, e)
    ensures Apply(v, e).ctl.stop && Apply(v, e).run == v.run
  {
  }

  lemma {:induction false} StopLeavesWork(v: World, e: Event)
    requires Enabled(v, e) && !e.Working?
    ensures var n := Apply(v, e);
            n.owner.Works() && (n.work.InTool? || n.work.InTasks?) ==> v.owner.Works() && n.work == v.work
  {
  }

  lemma {:induction false} StopNext(w: World, v: World, e: Event)
    requires NothingBegun(w, v) && Enabled(v, e) && !ClearsStop(v, e)
    ensures NothingBegun(w, Apply(v, e))
  {
    if e.Working? {
      StopMove(v, e.move);
      WorkingIsMove(v, e.move);
    } else {
      StopOther(v, e);
      StopLeavesWork(v, e);
    }
  }

  /** Once a stop has been asked for, and until a run loop leaves or starts, no tool and no task
      group begins to run, no run loop passes its head, no provider call begins, and no reply is
      taken that had not passed the look after the call. */
  lemma {:induction false} StopIsObeyed(w: World, es: seq<Event>)
    requires w.ctl.stop && Legal(w, es) && StopHolds(w, es)
    ensures NothingBegun(w, RunAll(w, es))
  {
    if es != [] {
      StopIsObeyed(w, Front(es));
      StopNext(w, RunAll(w, Front(es)), Last(es));
    }
  }

  /** A stop asks, claims the ordinary tool that is running, unless an earlier one has, and cancels
      the task group that is running, whose thread can leave at once. */
  lemma {:induction false} StopReaches(w: World)
    ensures var v := Apply(w, StopNow);
            && v.ctl.stop
            && (w.ctl.tool.Some? && w.ctl.tool.value.name != TASKS ==>
                  w.ctl.tool.value.id in w.ctl.interrupted || Enabled(v, StopReport(w.ctl.tool.value.id)))
            && (w.owner.Works() && w.work.InTasks? ==> Enabled(v, Working(TasksCut)))
    ensures var claimed := StopSection(w.ctl).1;
            claimed.Some? ==> claimed == w.ctl.tool && claimed.value.name != TASKS
  {
  }

  /** What a stop reports of the call it claimed. */
  lemma {:induction false} StopReportSays(w: World, callId: string)
    requires Enabled(w, StopReport(callId))
    ensures Apply(w, StopReport(callId)).sess.llm == w.sess.llm + [Tool(callId, "Tool interrupted.")]
  {
  }

  /** How often a call has been reported by a stop, and claimed by one. */
  function StopReports(es: seq<Event>, callId: string): nat {
    if es == [] then 0 else StopReports(Front(es), callId) + if Last(es) == StopReport(callId) then 1 else 0
  }

  ghost function StopClaims(w: World, es: seq<Event>, callId: string): nat
    requires Legal(w, es)
  {
    if es == [] then 0
    else
      StopClaims(w, Front(es), callId)
      + if Last(es).StopNow? && ClaimedBy(RunAll(w, Front(es)), callId) then 1 else 0
  }

  predicate ClaimedBy(v: World, callId: string) {
    var claimed := StopSection(v.ctl).1;
    claimed.Some? && claimed.value.id == callId
  }

  lemma {:induction false} ReportStep(v: World, e: Event, callId: string)
    requires Enabled(v, e)
    ensures callId in Apply(v, e).late <==>
            (callId in v.late && e != StopReport(callId)) || (e.StopNow? && ClaimedBy(v, callId))
    ensures e == StopReport(callId) ==> callId in v.late
  {
    if e.Working? {
      WorkingIsMove(v, e.move);
    }
  }

  /** A stop reports a call only if one has claimed it, and each claim is reported at most once. */
  lemma {:induction false} EachClaimReportedOnce(w: World, es: seq<Event>, callId: string)
    requires Legal(w, es) && callId !in w.late
    ensures StopReports(es, callId) + (if callId in RunAll(w, es).late then 1 else 0) <= StopClaims(w, es, callId)
  {
    if es != [] {
      EachClaimReportedOnce(w, Front(es), callId);
      ReportStep(RunAll(w, Front(es)), Last(es), callId);
    }
  }

  // ---------- Which way a call goes ----------

  /** Task groups run as task groups, which no stop claims, and other calls as tools; a batch that has
      been worked off leaves nothing queued. */
  ghost predicate InItsPlace(w: World) {
    w.owner.Works() ==>
      && (w.work.Entered? || w.work.InTool? || w.work.Won? ==> w.work.tc.name != TASKS)
      && (w.work.InTasks? ==> w.work.tc.name == TASKS)
      && (w.work.Drained? ==> w.sess.queue == [])
  }

  lemma {:induction false} PlaceMove(v: World, m: Move)
    requires InItsPlace(v) && v.owner.Works() && CanMove(v, m)
    ensures InItsPlace(ApplyMove(v, m))
  {
  }

  lemma {:induction false} PlaceOther(v: World, e: Event)
    requires InItsPlace(v) && Enabled(v, e) && !e.Working?
    ensures InItsPlace(Apply(v, e))
  {
  }

  lemma {:induction false} EachCallInItsPlace(w: World, es: seq<Event>)
    requires AtRest(w) && Legal(w, es)
    ensures InItsPlace(RunAll(w, es))
  {
    if es != [] {
      EachCallInItsPlace(w, Front(es));
      var v, e := RunAll(w, Front(es)), Last(es);
      if e.Working? {
        PlaceMove(v, e.move);
        WorkingIsMove(v, e.move);
      } else {
        PlaceOther(v, e);
      }
    }
  }

  /** The calls behind the one at hand are still with the thread, or in the session's queue. */
  ghost predicate KeepsRest(w: World, v: World, rest: seq<ToolCall>) {
    && v.ctl.stop && v.owner == w.owner
    && (if v.work.Halted? then v.sess.queue == rest
        else !v.work.Next? && !v.work.Drained? && v.work.rest == rest)
  }

  /** Neither the working thread hands over nor a run loop takes the stop back. */
  predicate Inside(v: World, e: Event) {
    !ClearsStop(v, e) && !e.RestDone? && !e.WorkHalted? && !e.WorkDrained?
  }

  ghost predicate AllInside(w: World, es: seq<Event>)
    requires Legal(w, es)
  {
    es != [] ==> AllInside(w, Front(es)) && Inside(RunAll(w, Front(es)), Last(es))
  }

  lemma {:induction false} KeepsMove(w: World, v: World, m: Move, rest: seq<ToolCall>)
    requires (v.owner.RunLoop? || v.owner.Rest?) && KeepsRest(w, v, rest) && CanMove(v, m)
    ensures KeepsRest(w, ApplyMove(v, m), rest)
  {
  }

  lemma {:induction false} KeepsOther(v: World, e: Event)
    requires (v.owner.RunLoop? || v.owner.Rest?) && v.ctl.stop && Enabled(v, e) && !e.Working? && Inside(v, e)
    requires !(e.Reply? && e.calls != [])
    ensures var n := Apply(v, e);
            n.ctl.stop && n.owner == v.owner && n.work == v.work && n.sess.queue == v.sess.queue
  {
  }

  /** A stop that comes in the middle of a batch of calls leaves exactly the calls behind the one at
      hand in the session's queue, for a later answer to take up. */
  lemma {:induction false} StopKeepsTheRest(w: World, es: seq<Event>)
    requires (w.owner.RunLoop? || w.owner.Rest?) && w.ctl.stop
    requires !w.work.Next? && !w.work.Halted? && !w.work.Drained?
    requires Legal(w, es) && AllInside(w, es)
    ensures KeepsRest(w, RunAll(w, es), w.work.rest)
  {
    if es != [] {
      StopKeepsTheRest(w, Front(es));
      var v, e := RunAll(w, Front(es)), Last(es);
      if e.Working? {
        KeepsMove(w, v, e.move, w.work.rest);
        WorkingIsMove(v, e.move);
      } else {
        KeepsOther(v, e);
      }
    }
  }

  // ---------- Nobody is stuck ----------

  /** A step of the thread that works on calls, or answers. */
  predicate IsThreads(e: Event) {
    e.Working? || e.FirstDone? || e.Take? || e.RestDone? || e.Restart? || e.WorkDrained? || e.WorkHalted?
  }

  lemma {:induction false} WorkerCanMove(w: World) returns (m: Move)
    requires w.owner.Works() && !w.work.Halted? && !w.work.Drained? && !(w.owner.First? && w.work.Settled?)
    ensures CanMove(w, m)
  {
    m := match w.work
         case Next(left) => if left == [] then Finish else ShowRow("")
         case Prepared(tc, _) => if tc.name == QUESTION then Ask("") else Permit
         case Allowed(_, _) => Enter
         case Entered(_, _) => Mark
         case InTool(_, _) => Clear
         case InTasks(_, _) => TasksReport("", "")
         case Won(_, _) => Report("", "")
         case Answering(_, _, _, _) => Deliver
         case Clearing(_, _) => ClearAgain
         case _ => Look;
  }

  /** Whoever works on calls, or answers, always has a step to take, and so has a run loop that does
      not wait for such work: nobody depends on another thread to go on. */
  lemma {:induction false} ThreadsGoOn(w: World, es: seq<Event>)
    requires AtRest(w) && Legal(w, es)
    ensures !RunAll(w, es).owner.Nobody? ==> exists e :: IsThreads(e) && Enabled(RunAll(w, es), e)
    ensures !RunAll(w, es).run.NoRun? ==> exists e :: (IsRunLoops(e) || IsThreads(e)) && Enabled(RunAll(w, es), e)
  {
    AlwaysKept(w, es);
    var v := RunAll(w, es);
    if !v.owner.Nobody? {
      var e := ThreadGoesOn(v);
    }
    if !v.run.NoRun? && !v.run.Processing? {
      var e := RunLoopGoesOn(v);
    }
  }

  lemma {:induction false} ThreadGoesOn(v: World) returns (e: Event)
    requires Shaped(v) && !v.owner.Nobody?
    ensures IsThreads(e) && Enabled(v, e)
  {
    if v.owner.First? && v.work.Settled? {
      e := FirstDone;
    } else if v.owner.Taking? {
      e := Take;
    } else if v.owner.Restarting? {
      e := Restart;
    } else if v.work.Halted? || v.work.Drained? {
      e := if v.owner.Rest? then RestDone else if v.work.Halted? then WorkHalted else WorkDrained(true);
    } else {
      var m := WorkerCanMove(v);
      e := Working(m);
    }
  }

  lemma {:induction false} RunLoopGoesOn(v: World) returns (e: Event)
    requires !v.run.NoRun? && !v.run.Processing?
    ensures IsRunLoops(e) && Enabled(v, e)
  {
    e := match v.run
         case Starting => Spawned
         case AtTop => Head
         case Loading => Load
         case Snapped(_) => Begin
         case Calling(_) => Return
         case Returned => Check
         case Checked => Reply("", "", false, [])
         case _ => Exit;
  }

  /** What is open to everyone: the steps of the user and of other threads ask for no more than the
      program does. */
  lemma {:induction false} AnyoneMayAct(w: World, i: nat, id: string, text: string)
    ensures Enabled(w, StopNow) && Enabled(w, Resumed(id, text, text))
    ensures !w.ctl.running ==> Enabled(w, Send(id, text, text)) && Enabled(w, Start)
    ensures w.owner.Nobody? && i < |w.sess.approvals| ==> Enabled(w, Approve(i)) && Enabled(w, Decline(i))
    ensures w.owner.Nobody? && i < |w.sess.questions| ==> Enabled(w, Answer(i, text))
  {
  }

  /** An idle session can be rewound to anything the user said. */
  lemma {:induction false} AnyTurnMayBeRewound(w: World, row: Entry)
    requires !w.ctl.running && row in w.sess.messages && row.role.UserRole?
    ensures Enabled(w, Rewind(row.id))
  {
    var k :| 0 <= k < |w.sess.messages| && w.sess.messages[k] == row;
    assert FindUser(w.sess.messages, row.id, 0) <= k;
  }

  /** And each way to handle a call is there where the program has it. */
  lemma {:induction false} AnyDecisionMayFall(w: World, id: string, text: string)
    ensures w.work.Prepared? ==>
              if w.work.tc.name == QUESTION then CanMove(w, AskBad(text)) && CanMove(w, Ask(id))
              else CanMove(w, Deny(text)) && CanMove(w, NeedApproval(id)) && CanMove(w, Permit)
    ensures w.work.Entered? ==> CanMove(w, Reject(text)) && CanMove(w, Mark)
    ensures w.work.InTasks? ==> CanMove(w, Reject(text)) && CanMove(w, TasksReport(text, text))
  {
  }
}
