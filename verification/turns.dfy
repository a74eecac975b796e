/** How one session works through the tool calls of an assistant turn: processToolCalls,
    prepareOrExecuteTool and executeToolCall section by section, the pauses for approvals
    and questions, the user's answers that resume them, and the stops that cut across.

    One thread at a time works on the session's tool calls: the run loop, or the thread of
    a ResolveApproval or AnswerQuestion call.  Stops, late results, rewinds, user turns,
    workflow rounds and new run loops come from any number of other threads, and ask for no
    more than the program does: user turns, rewinds and new run loops that no run loop owns the
    session, the others for nothing.

    Main results: on a turn left to itself whose reply landed while nothing waited, the calls
    answered so far, the paused call and the queue are the turn's calls in order exactly until a
    run loop fills in results for calls that are still in hand; a reply that lands while
    something waits is exactly what breaks that, and what lets two wait; a queue taken up is the
    rest of the turn whose call was just resolved, unless the last turn changed under it; and
    every run here is a run of ProviderRuns, so the provider's rule carries over. */
module Turns {
  import opened Common
  import opened Transcript
  import opened Sessions
  import opened Controls
  import Runs = ProviderRuns

  /** Where the working thread is with the calls it was given. */
  datatype Work =
    | Next(left: seq<ToolCall>)                    // processToolCalls, head of its loop
    | Prepared(tc: ToolCall, rest: seq<ToolCall>)  // the call's row is shown
    | Allowed(tc: ToolCall, rest: seq<ToolCall>)   // entering executeToolCall
    | Entered(tc: ToolCall, rest: seq<ToolCall>)   // no stop seen; an ordinary tool
    | InTool(tc: ToolCall, rest: seq<ToolCall>)    // registered and running
    | InTasks(tc: ToolCall, rest: seq<ToolCall>)   // its task group is running
    | Won(tc: ToolCall, rest: seq<ToolCall>)       // returned, and keeps its right to report
    | Answering(tc: ToolCall, rest: seq<ToolCall>, text: string, status: string) // the user's answer is the result
    | Clearing(tc: ToolCall, rest: seq<ToolCall>)  // before the deferred clear
    | Settled(tc: ToolCall, rest: seq<ToolCall>)   // done with the call, answered or not
    | Halted                                       // processToolCalls returned "paused"
    | Drained                                      // processToolCalls returned "not paused"
  {
    /** The calls that still have no result from this thread. */
    function Left(): seq<ToolCall> {
      match this
      case Next(left) => left
      case Clearing(_, rest) => rest
      case Settled(_, rest) => rest
      case Halted => []
      case Drained => []
      case _ => [this.tc] + this.rest
    }
  }

  /** Who is working, and for an answering thread how far it is. */
  datatype Owner =
    | Nobody
    | RunLoop
    | First(resolved: ToolCall)    // settling the call the user resolved
    | Taking(resolved: ToolCall)   // about to take the queue
    | Rest                         // working through the queue it took
    | Restarting                   // about to call startRun
  {
    predicate Works() {
      RunLoop? || First? || Rest?
    }
  }

  datatype World = World(
    sess: Session,
    ctl: Flags,
    groupCut: bool,          // the running task group's context has been cancelled
    run: Runs.RunPc,
    owner: Owner,
    work: Work,
    late: set<string>,       // calls claimed by stops that have not reported yet
    calm: bool,              // the last turn became so with no other turn's calls in hand or waiting
    own: bool,               // the last turn has been left to itself
    filled: bool,            // a run loop has filled in results of it for calls in hand
    used: set<string>)       // the ids the provider and the workflows have given to calls

  /** The sections of the working thread. */
  datatype Move =
    | ShowRow(entryId: string)
    | AskBad(text: string) | Ask(id: string)
    | Deny(text: string) | NeedApproval(id: string) | Permit
    | Enter | Reject(text: string)
    | Mark | Clear | Report(text: string, status: string) | ClearAgain
    | TasksReport(text: string, status: string) | TasksCut
    | Deliver
    | Look | Finish

  datatype Event =
    | Send(id: string, content: string, prompt: string)
    | Force(id: string, content: string, prompt: string, tc: ToolCall)
    | Rewind(messageId: string)
    | Approve(i: nat) | Decline(i: nat) | Answer(i: nat, text: string)
    | FirstDone | Take | RestDone | Restart
    | StopNow | StopReport(callId: string)
    | Resumed(callId: string, text: string, status: string)
    | Row(entry: Entry)
    | Start | Spawned | Refused
    | Head | Load | Begin | Return | Fail | Check
    | Reply(id: string, content: string, shown: bool, calls: seq<ToolCall>)
    | WorkDrained(again: bool) | WorkHalted | Exit
    | Working(move: Move)

  const STOPPED := "Tool interrupted."

  /** Distinct ids, and none that a stop still knows. */
  predicate FreshCalls(w: World, calls: seq<ToolCall>) {
    Distinct(Ids(calls)) && "" !in IdSet(calls) && IdSet(calls) !! w.ctl.interrupted && IdSet(calls) !! w.late
  }

  // ---------- The working thread ----------

  predicate CanMove(w: World, m: Move) {
    var k := w.work;
    match m
    case ShowRow(_) => k.Next? && k.left != []
    case AskBad(_) => k.Prepared? && k.tc.name == QUESTION
    case Ask(_) => k.Prepared? && k.tc.name == QUESTION
    case Deny(_) => k.Prepared? && k.tc.name != QUESTION
    case NeedApproval(_) => k.Prepared? && k.tc.name != QUESTION
    case Permit => k.Prepared? && k.tc.name != QUESTION
    case Enter => k.Allowed?
    case Reject(_) => k.Entered? || k.InTasks?
    case Mark => k.Entered?
    case Clear => k.InTool?
    case Report(_, _) => k.Won?
    case ClearAgain => k.Clearing?
    case TasksReport(_, _) => k.InTasks?
    case TasksCut => k.InTasks? && w.groupCut
    case Deliver => k.Answering?
    case Look => k.Settled? && !w.owner.First?
    case Finish => k.Next? && k.left == []
  }

  function Answered(w: World, text: string, status: string, k: Work): World
    requires w.work.Prepared? || w.work.Entered? || w.work.InTasks? || w.work.Won? || w.work.Answering?
  {
    w.(sess := AnswerCall(w.sess, w.work.tc.id, text, status), work := k)
  }

  /** A call that pauses: what waits and what is queued behind it are set in one step. */
  function Pause(w: World, id: string, question: bool): World
    requires w.work.Prepared?
  {
    var p := Pending(id, w.work.tc);
    var s := w.sess.(queue := w.work.rest);
    w.(sess := if question then s.(questions := s.questions + [p]) else s.(approvals := s.approvals + [p]),
       work := Halted)
  }

  function ApplyMove(w: World, m: Move): World
    requires CanMove(w, m)
  {
    var k := w.work;
    match m
    case ShowRow(entryId) =>
      w.(sess := AddEntry(w.sess, Entry(entryId, ToolRole, "", "pending", k.left[0].id, "")),
         work := Prepared(k.left[0], k.left[1..]))
    case AskBad(text) => Answered(w, "Error: " + text, "error", Settled(k.tc, k.rest))
    case Ask(id) => Pause(w, id, true)
    case Deny(text) => Answered(w, "Error: " + text, "denied", Settled(k.tc, k.rest))
    case NeedApproval(id) => Pause(w, id, false)
    case Permit => w.(work := Allowed(k.tc, k.rest))
    case Enter =>
      if w.ctl.stop then w.(work := Settled(k.tc, k.rest))
      else if k.tc.name == TASKS then w.(work := InTasks(k.tc, k.rest), groupCut := false)
      else w.(work := Entered(k.tc, k.rest))
    case Reject(text) => Answered(w, "Error: " + text, "error", Settled(k.tc, k.rest))
    case Mark =>
      var (ctl, ok) := MarkSection(w.ctl, k.tc);
      w.(ctl := ctl, work := if ok then InTool(k.tc, k.rest) else Settled(k.tc, k.rest))
    case Clear =>
      var (ctl, lost) := ClearSection(w.ctl, k.tc.id);
      w.(ctl := ctl, work := if lost then Clearing(k.tc, k.rest) else Won(k.tc, k.rest))
    case Report(text, status) => Answered(w, text, status, Clearing(k.tc, k.rest))
    case ClearAgain => w.(ctl := ClearSection(w.ctl, k.tc.id).0, work := Settled(k.tc, k.rest))
    case TasksReport(text, status) => Answered(w, text, status, Settled(k.tc, k.rest))
    case TasksCut => w.(work := Settled(k.tc, k.rest))
    case Deliver => Answered(w, k.text, k.status, Settled(k.tc, k.rest))
    case Look =>
      if w.ctl.stop then w.(sess := w.sess.(queue := k.rest), work := Halted)
      else w.(work := Next(k.rest))
    case Finish => w.(sess := w.sess.(queue := []), work := Drained)
  }

  // ---------- The session ----------

  /** Somebody has calls to work on, or is about to take the queue. */
  predicate InHand(w: World) {
    w.owner.First? || w.owner.Taking? || (w.owner.Works() && !w.work.Halted? && w.work.Left() != [])
  }

  /** A step that changes which turn is the last one while calls of that turn are in hand or
      wait for the user. */
  predicate Crosses(w: World, e: Event) {
    match e
    case Send(_, _, _) => InHand(w) || w.sess.Waiting()
    case Force(_, _, _, _) => InHand(w) || w.sess.Waiting()
    case Reply(_, _, _, _) => InHand(w) || w.sess.Waiting()
    case Rewind(_) => InHand(w)
    case _ => false
  }

  /** Calm is settled each time another turn becomes the last one. */
  predicate StaysCalm(w: World, e: Event) {
    if e.Send? || e.Force? || e.Rewind? || e.Reply? then !Crosses(w, e) else w.calm
  }

  /** The last turn, or the one that begins here, has not been stopped, forced, rewound or spoken
      over, and no other thread has reported one of its calls. */
  predicate StaysOwn(w: World, e: Event) {
    match e
    case StopNow => false
    case Send(_, _, _) => false
    case Force(_, _, _, _) => false
    case Rewind(_) => false
    case Resumed(callId, _, _) => w.own && callId !in IdSet(LastCalls(w.sess.llm))
    case Reply(_, _, _, _) => !w.ctl.stop
    case _ => w.own
  }

  /** A run loop fills in results, while nothing waits for the user. */
  predicate Fills(w: World, e: Event) {
    e.Load? && !w.sess.Waiting() && Missing(w.sess.llm) != []
  }

  predicate IsFilled(w: World, e: Event) {
    !e.Send? && !e.Force? && !e.Reply? && (w.filled || Fills(w, e))
  }

  ghost predicate Enabled(w: World, e: Event) {
    match e
    case Send(_, _, _) => !w.ctl.running
    case Force(_, _, _, tc) => tc.id !in w.used
    case Rewind(messageId) => !w.ctl.running && FindUser(w.sess.messages, messageId, 0) < |w.sess.messages|
    case Approve(i) => w.owner.Nobody? && i < |w.sess.approvals|
    case Decline(i) => w.owner.Nobody? && i < |w.sess.approvals|
    case Answer(i, _) => w.owner.Nobody? && i < |w.sess.questions|
    case FirstDone => w.owner.First? && w.work.Settled?
    case Take => w.owner.Taking?
    case RestDone => w.owner.Rest? && (w.work.Halted? || w.work.Drained?)
    case Restart => w.owner.Restarting?
    case StopNow => true
    case StopReport(callId) => callId in w.late
    case Resumed(_, _, _) => true
    case Row(entry) => !entry.role.UserRole?
    case Start => !w.ctl.running
    case Spawned => w.run.Starting?
    case Refused => w.run.Starting?
    case Head => w.run.AtTop?
    case Load => w.run.Loading?
    case Begin => w.run.Snapped?
    case Return => w.run.Calling?
    case Fail => w.run.Snapped? || w.run.Calling?
    case Check => w.run.Returned?
    case Reply(_, _, _, calls) =>
      && w.run.Checked? && FreshCalls(w, calls) && w.used !! IdSet(calls)
      && (calls != [] ==> w.owner.Nobody?)
    case WorkDrained(_) => w.owner.RunLoop? && w.work.Drained?
    case WorkHalted => w.owner.RunLoop? && w.work.Halted?
    case Exit => w.run.Leaving?
    case Working(m) => w.owner.Works() && CanMove(w, m)
  }

  function Without<T>(s: seq<T>, i: nat): seq<T>
    requires i < |s|
  {
    s[..i] + s[i + 1..]
  }

  ghost function Apply(w: World, e: Event): World
    requires Enabled(w, e)
  {
    Effect(w, e).(calm := StaysCalm(w, e), own := StaysOwn(w, e), filled := IsFilled(w, e))
  }

  ghost function Effect(w: World, e: Event): World
    requires Enabled(w, e)
  {
    match e
    case Send(id, content, prompt) => w.(sess := SendUser(w.sess, id, content, prompt))
    case Force(id, content, prompt, tc) =>
      w.(sess := ForceCall(w.sess, id, content, prompt, tc), used := w.used + {tc.id})
    case Rewind(messageId) => w.(sess := RewindTo(w.sess, FindUser(w.sess.messages, messageId, 0)))
    case Approve(i) =>
      var tc := w.sess.approvals[i].call;
      w.(sess := w.sess.(approvals := Without(w.sess.approvals, i)), owner := First(tc), work := Allowed(tc, []))
    case Decline(i) =>
      var tc := w.sess.approvals[i].call;
      w.(sess := w.sess.(approvals := Without(w.sess.approvals, i)), owner := First(tc),
         work := Answering(tc, [], DECLINED, "declined"))
    case Answer(i, text) =>
      var tc := w.sess.questions[i].call;
      w.(sess := w.sess.(questions := Without(w.sess.questions, i)), owner := First(tc),
         work := Answering(tc, [], text, "completed"))
    case FirstDone => w.(owner := Taking(w.owner.resolved))
    case Take => w.(sess := w.sess.(queue := []), owner := Rest, work := Next(w.sess.queue))
    case RestDone => w.(owner := Restarting)
    case Restart =>
      if w.ctl.running then w.(owner := Nobody)
      else w.(owner := Nobody, ctl := StartSection(w.ctl), run := Runs.Starting)
    case StopNow =>
      var (ctl, claimed) := StopSection(w.ctl);
      w.(ctl := ctl, groupCut := true,
         late := if claimed.Some? then w.late + {claimed.value.id} else w.late)
    case StopReport(callId) =>
      w.(sess := AnswerCall(w.sess, callId, STOPPED, "interrupted"), late := w.late - {callId})
    case Resumed(callId, text, status) => w.(sess := AnswerCall(w.sess, callId, text, status))
    case Row(entry) => w.(sess := AddEntry(w.sess, entry))
    case Start => w.(ctl := StartSection(w.ctl), run := Runs.Starting)
    case Spawned => w.(run := Runs.AtTop)
    case Refused => w.(ctl := w.ctl.(running := false), run := Runs.NoRun)
    case Head => w.(run := if w.ctl.stop then Runs.Leaving else Runs.Loading)
    case Load =>
      if w.sess.Waiting() then w.(run := Runs.Leaving)
      else
        var llm := EnsureComplete(w.sess.llm);
        w.(sess := w.sess.(llm := llm), run := Runs.Snapped(llm))
    case Begin => w.(run := if w.ctl.stop then Runs.Leaving else Runs.Calling(w.run.request))
    case Return => w.(run := Runs.Returned)
    case Fail => w.(run := Runs.Leaving)
    case Check => w.(run := if w.ctl.stop then Runs.Leaving else Runs.Checked)
    case Reply(id, content, shown, calls) =>
      var v := w.(sess := AddAssistant(w.sess, id, content, shown, calls), used := w.used + IdSet(calls));
      if calls == [] then v.(run := Runs.Leaving)
      else v.(run := Runs.Processing, owner := RunLoop, work := Next(calls))
    case WorkDrained(again) => w.(run := if again then Runs.AtTop else Runs.Leaving, owner := Nobody)
    case WorkHalted => w.(run := Runs.Leaving, owner := Nobody)
    case Exit => w.(ctl := UnwindSection(w.ctl), run := Runs.NoRun)
    case Working(m) => ApplyMove(w, m)
  }

  ghost predicate Legal(w: World, es: seq<Event>)
    decreases |es|, 0
  {
    es != [] ==> Legal(w, Front(es)) && Enabled(RunAll(w, Front(es)), Last(es))
  }

  ghost function RunAll(w: World, es: seq<Event>): World
    requires Legal(w, es)
    decreases |es|, 1
  {
    if es == [] then w else Apply(RunAll(w, Front(es)), Last(es))
  }

  lemma {:induction false} Extend(w: World, es: seq<Event>, e: Event)
    requires Legal(w, es) && Enabled(RunAll(w, es), e)
    ensures Legal(w, es + [e]) && RunAll(w, es + [e]) == Apply(RunAll(w, es), e)
  {
    assert Front(es + [e]) == es;
  }

  /** A session nobody works on, with nothing waiting. */
  ghost predicate AtRest(w: World) {
    && w.owner.Nobody? && Runs.AtRest(Chat(w)) && !w.sess.Waiting() && w.calm && !w.own
  }

  /** What ProviderRuns sees of a world. */
  function Chat(w: World): Runs.Chat {
    Runs.Chat(w.sess, w.ctl.running, w.ctl.stop, w.run)
  }

  // ---------- What every step keeps ----------

  ghost predicate IsSuffix<T(!new)>(a: seq<T>, b: seq<T>) {
    exists done :: b == done + a
  }

  /** The calls that wait for the user. */
  function WaitingCalls(s: Session): seq<ToolCall> {
    CallsOf(s.approvals) + CallsOf(s.questions)
  }

  function CallsOf(pending: seq<Pending>): (calls: seq<ToolCall>)
    ensures |calls| == |pending| && forall i | 0 <= i < |calls| :: calls[i] == pending[i].call
  {
    seq(|pending|, i requires 0 <= i < |pending| => pending[i].call)
  }

  /** The calls of the turn that are still to be handled, wherever they are kept. */
  function Remaining(w: World): seq<ToolCall> {
    if w.owner.First? then w.work.Left() + w.sess.queue
    else if w.owner.Taking? then w.sess.queue
    else if w.owner.Works() && !w.work.Halted? then w.work.Left()
    else if w.sess.Waiting() then WaitingCalls(w.sess) + w.sess.queue
    else []
  }

  /** The results the transcript has for the last turn's own calls, in order. */
  function Results(llm: seq<Message>): seq<string> {
    Only(TailResults(llm), IdSet(LastCalls(llm)))
  }

  function Only(ids: seq<string>, mine: set<string>): seq<string> {
    if ids == [] then []
    else Only(Front(ids), mine) + (if Last(ids) in mine then [Last(ids)] else [])
  }

  /** Who may be working while what is going on. */
  ghost predicate Shaped(w: World) {
    && (w.ctl.running <==> !w.run.NoRun?)
    && (w.run.Processing? <==> w.owner.RunLoop?)
    && (w.owner.First? ==> !w.work.Next? && !w.work.Prepared? && !w.work.Halted? && !w.work.Drained?
                           && w.work.tc == w.owner.resolved && w.work.rest == [])
  }

  /** At most one approval or question waits, and none while anyone has calls to work on. */
  ghost predicate OneWaits(w: World) {
    && |w.sess.approvals| + |w.sess.questions| <= 1
    && (w.sess.Waiting() ==>
          !w.owner.First? && !w.owner.Taking? && (w.owner.Works() ==> w.work.Halted?))
  }

  /** What remains to be done is the end of the last turn's calls: nothing of an earlier
      turn is ever taken up. */
  ghost predicate OfLastTurn(w: World) {
    var calls := LastCalls(w.sess.llm);
    && IsSuffix(Remaining(w), calls)
    && (w.owner.First? || w.owner.Taking? ==> IsSuffix([w.owner.resolved] + w.sess.queue, calls))
  }

  /** On a turn left to itself no stop is pending and no id is reused. */
  ghost predicate Undisturbed(w: World) {
    && !w.ctl.stop && (w.work.InTasks? && w.owner.Works() ==> !w.groupCut)
    && FreshCalls(w, LastCalls(w.sess.llm))
  }

  /** The answered calls and the remaining ones are the turn's calls; once results have been
      filled in they are too many. */
  ghost predicate InBalance(calls: seq<ToolCall>, held: seq<ToolCall>, results: seq<string>, filled: bool) {
    exists done :: Splits(done, calls, held, results, filled)
  }

  ghost predicate Splits(done: seq<ToolCall>, calls: seq<ToolCall>, held: seq<ToolCall>, results: seq<string>,
                         filled: bool) {
    calls == done + held && if filled then |results| > |done| else results == Ids(done)
  }

  /** The calls' side of the invariant. */
  ghost predicate Accounted(w: World) {
    && OfLastTurn(w)
    && (w.own ==>
          && Undisturbed(w)
          && InBalance(LastCalls(w.sess.llm), Remaining(w), Results(w.sess.llm), w.filled))
  }

  ghost predicate Good(w: World) {
    Shaped(w) && OneWaits(w) && Accounted(w)
  }

  /** What holds in every reachable state. */
  ghost predicate Kept(w: World) {
    Shaped(w) && (w.calm ==> Good(w))
  }

  // ---------- Each step keeps it ----------

  /** Handling the next call moves exactly that call from the remaining to the handled. */
  lemma {:induction false} Advance(tc: ToolCall, rest: seq<ToolCall>, calls: seq<ToolCall>)
    requires IsSuffix([tc] + rest, calls)
    ensures IsSuffix(rest, calls) && tc.id in IdSet(calls)
  {
    var done :| calls == done + ([tc] + rest);
    Assoc(done, [tc], rest);
    assert calls == (done + [tc]) + rest && calls[|done|] == tc && tc in calls;
  }

  lemma {:induction false} BalanceNext(tc: ToolCall, rest: seq<ToolCall>, calls: seq<ToolCall>, results: seq<string>,
                                       filled: bool)
    requires InBalance(calls, [tc] + rest, results, filled)
    ensures InBalance(calls, rest, results + [tc.id], filled)
  {
    var done :| Splits(done, calls, [tc] + rest, results, filled);
    Assoc(done, [tc], rest);
    assert Ids(done + [tc]) == Ids(done) + [tc.id];
    assert Splits(done + [tc], calls, rest, results + [tc.id], filled);
  }

  lemma {:induction false} ResultArrives(s: Session, callId: string, text: string, status: string)
    ensures var llm := AnswerCall(s, callId, text, status).llm;
            && LastCalls(llm) == LastCalls(s.llm)
            && Results(llm) == Results(s.llm) + (if callId in IdSet(LastCalls(s.llm)) then [callId] else [])
  {
    AppendTool(s.llm, callId, text);
    assert Front(TailResults(s.llm) + [callId]) == TailResults(s.llm);
  }

  lemma {:induction false} ShapedMove(w: World, m: Move)
    requires Shaped(w) && w.owner.Works() && CanMove(w, m)
    ensures Shaped(ApplyMove(w, m))
  {
    assert ApplyMove(w, m).owner == w.owner;
  }

  lemma {:induction false} ShapedStep(w: World, e: Event)
    requires Shaped(w) && Enabled(w, e) && !e.Working?
    ensures Shaped(Apply(w, e))
  {
  }

  lemma {:induction false} OneWaitsMove(w: World, m: Move)
    requires Shaped(w) && OneWaits(w) && w.owner.Works() && CanMove(w, m)
    ensures OneWaits(ApplyMove(w, m))
  {
  }

  /** A reply that brings calls while something waits. */
  predicate RepliesOver(w: World, e: Event) {
    e.Reply? && e.calls != [] && w.sess.Waiting()
  }

  lemma {:induction false} OneWaitsStep(w: World, e: Event)
    requires Shaped(w) && OneWaits(w) && Enabled(w, e) && !e.Working? && !RepliesOver(w, e)
    ensures OneWaits(Apply(w, e))
  {
  }

  // ---------- The account, step by step ----------

  /** A step that leaves the turn and what remains of it alone. */
  ghost predicate SameAccount(w: World, v: World) {
    && v.sess.llm == w.sess.llm && Remaining(v) == Remaining(w)
    && (v.owner.First? || v.owner.Taking? ==>
          && (w.owner.First? || w.owner.Taking?)
          && v.owner.resolved == w.owner.resolved && v.sess.queue == w.sess.queue)
    && (v.own ==> w.own && v.filled == w.filled && StillUndisturbed(w, v))
  }

  lemma {:induction false} Carried(w: World, v: World)
    requires Accounted(w) && SameAccount(w, v)
    ensures Accounted(v)
  {
  }

  /** What a step must leave of the flags on a turn left to itself. */
  ghost predicate StillUndisturbed(w: World, v: World) {
    && (v.ctl.stop ==> w.ctl.stop) && v.ctl.interrupted <= w.ctl.interrupted && v.late <= w.late
    && (v.work.InTasks? && v.owner.Works() ==> !v.groupCut)
  }

  /** What remains once the current call is done with. */
  function RestAfter(w: World): seq<ToolCall>
    requires w.work != Halted && w.work != Drained && !w.work.Next?
  {
    if w.owner.First? then w.sess.queue else w.work.rest
  }

  /** The working thread has a call in its hands that is not settled. */
  predicate AtCall(w: World) {
    w.owner.Works() && !w.work.Next? && !w.work.Clearing? && !w.work.Settled? && !w.work.Halted? && !w.work.Drained?
  }

  lemma {:induction false} CurrentCall(w: World)
    requires Shaped(w) && AtCall(w)
    ensures Remaining(w) == [w.work.tc] + RestAfter(w)
  {
    assert w.work.Left() == [w.work.tc] + w.work.rest;
    Assoc([w.work.tc], w.work.rest, w.sess.queue);
    assert w.owner.First? ==> [] + w.sess.queue == w.sess.queue;
  }

  lemma {:induction false} PutBehind(w: World, v: World)
    requires Shaped(w) && AtCall(w) && v.owner == w.owner && v.sess.queue == w.sess.queue
    requires v.work == Settled(w.work.tc, w.work.rest) || v.work == Clearing(w.work.tc, w.work.rest)
    ensures Remaining(v) == RestAfter(w)
  {
    assert w.owner.First? ==> [] + w.sess.queue == w.sess.queue;
  }

  /** A result of the current call arrives from the working thread. */
  lemma {:induction false} AnsweredKeeps(w: World, text: string, status: string, k: Work)
    requires Shaped(w) && Accounted(w) && AtCall(w)
    requires k == Settled(w.work.tc, w.work.rest) || k == Clearing(w.work.tc, w.work.rest)
    ensures Accounted(w.(sess := AnswerCall(w.sess, w.work.tc.id, text, status), work := k))
  {
    var v := w.(sess := AnswerCall(w.sess, w.work.tc.id, text, status), work := k);
    CurrentCall(w);
    PutBehind(w, v);
    ResultArrives(w.sess, w.work.tc.id, text, status);
    Advance(w.work.tc, RestAfter(w), LastCalls(w.sess.llm));
    if w.own {
      BalanceNext(w.work.tc, RestAfter(w), LastCalls(w.sess.llm), Results(w.sess.llm), w.filled);
    }
  }

  /** Giving the current call up, which a turn left to itself never does. */
  lemma {:induction false} GivingUpKeeps(w: World, ctl: Flags, k: Work)
    requires Shaped(w) && Accounted(w) && AtCall(w) && !w.own
    requires k == Settled(w.work.tc, w.work.rest) || k == Clearing(w.work.tc, w.work.rest)
    ensures Accounted(w.(ctl := ctl, work := k))
  {
    CurrentCall(w);
    PutBehind(w, w.(ctl := ctl, work := k));
    Advance(w.work.tc, RestAfter(w), LastCalls(w.sess.llm));
  }

  /** Going on with the call, or putting it behind once it is answered. */
  lemma {:induction false} GoingOnKeeps(w: World, ctl: Flags, groupCut: bool, k: Work)
    requires Accounted(w) && w.owner.Works() && !w.work.Halted? && !k.Halted?
    requires k.Left() == w.work.Left() && ctl.stop == w.ctl.stop && ctl.interrupted <= w.ctl.interrupted
    requires k.InTasks? ==> !groupCut
    ensures Accounted(w.(ctl := ctl, groupCut := groupCut, work := k))
  {
    var v := w.(ctl := ctl, groupCut := groupCut, work := k);
    assert Remaining(v) == Remaining(w);
    Carried(w, v);
  }

  /** On a turn left to itself nothing is stopped, lost or cut. */
  lemma {:induction false} NoneLost(w: World)
    requires Shaped(w) && Accounted(w) && AtCall(w) && w.own
    ensures !w.ctl.stop && w.work.tc.id !in w.ctl.interrupted && (w.work.InTasks? ==> !w.groupCut)
  {
    CurrentCall(w);
    Advance(w.work.tc, RestAfter(w), LastCalls(w.sess.llm));
  }

  lemma {:induction false} EnterKeeps(w: World, m: Move)
    requires Shaped(w) && Accounted(w) && w.owner.Works() && CanMove(w, m) && (m.Permit? || m.Enter? || m.Mark?)
    ensures Accounted(ApplyMove(w, m))
  {
    if w.ctl.stop && !m.Permit? {
      if w.own {
        NoneLost(w);
      }
      GivingUpKeeps(w, w.ctl, Settled(w.work.tc, w.work.rest));
    } else if m.Permit? {
      GoingOnKeeps(w, w.ctl, w.groupCut, Allowed(w.work.tc, w.work.rest));
    } else if m.Mark? {
      GoingOnKeeps(w, MarkSection(w.ctl, w.work.tc).0, w.groupCut, InTool(w.work.tc, w.work.rest));
    } else if w.work.tc.name == TASKS {
      GoingOnKeeps(w, w.ctl, false, InTasks(w.work.tc, w.work.rest));
    } else {
      GoingOnKeeps(w, w.ctl, w.groupCut, Entered(w.work.tc, w.work.rest));
    }
  }

  lemma {:induction false} ClearKeeps(w: World)
    requires Shaped(w) && Accounted(w) && w.owner.Works() && w.work.InTool?
    ensures Accounted(ApplyMove(w, Clear))
  {
    if w.own {
      NoneLost(w);
    }
    ClearKeepsIf(w);
  }

  lemma {:induction false} ClearKeepsIf(w: World)
    requires Shaped(w) && Accounted(w) && w.owner.Works() && w.work.InTool?
    requires w.own ==> !ClearSection(w.ctl, w.work.tc.id).1
    ensures Accounted(ApplyMove(w, Clear))
  {
    var (ctl, lost) := ClearSection(w.ctl, w.work.tc.id);
    if lost {
      GivingUpKeeps(w, ctl, Clearing(w.work.tc, w.work.rest));
    } else {
      GoingOnKeeps(w, ctl, w.groupCut, Won(w.work.tc, w.work.rest));
    }
  }

  lemma {:induction false} ClearAgainKeeps(w: World)
    requires Accounted(w) && w.owner.Works() && w.work.Clearing?
    ensures Accounted(ApplyMove(w, ClearAgain))
  {
    GoingOnKeeps(w, ClearSection(w.ctl, w.work.tc.id).0, w.groupCut, Settled(w.work.tc, w.work.rest));
  }

  lemma {:induction false} TasksCutKeeps(w: World)
    requires Shaped(w) && Accounted(w) && w.owner.Works() && w.work.InTasks? && w.groupCut
    ensures Accounted(ApplyMove(w, TasksCut))
  {
    CutIsNotOwn(w);
    GivingUpKeeps(w, w.ctl, Settled(w.work.tc, w.work.rest));
  }

  lemma {:induction false} CutIsNotOwn(w: World)
    requires Shaped(w) && Accounted(w) && w.owner.Works() && w.work.InTasks? && w.groupCut
    ensures !w.own
  {
    if w.own {
      NoneLost(w);
    }
  }

  /** Showing the next call's row. */
  lemma {:induction false} ShowRowKeeps(w: World, m: Move)
    requires Accounted(w) && w.owner.Works() && CanMove(w, m) && m.ShowRow? && !w.owner.First?
    ensures Accounted(ApplyMove(w, m))
  {
    var v := ApplyMove(w, m);
    assert [w.work.left[0]] + w.work.left[1..] == w.work.left;
    assert Remaining(v) == Remaining(w);
    Carried(w, v);
  }

  /** Pausing, where nothing waits yet. */
  lemma {:induction false} PauseKeeps(w: World, id: string, question: bool)
    requires Accounted(w) && w.owner.Works() && w.work.Prepared? && !w.owner.First? && !w.sess.Waiting()
    ensures Accounted(Pause(w, id, question))
  {
    var v := Pause(w, id, question);
    assert WaitingCalls(v.sess) == [w.work.tc];
    assert Remaining(v) == [w.work.tc] + w.work.rest == Remaining(w);
    Carried(w, v);
  }

  lemma {:induction false} HaltKeeps(w: World)
    requires Accounted(w) && w.owner.Works() && w.work.Settled? && !w.owner.First? && w.ctl.stop && !w.sess.Waiting()
    ensures Accounted(ApplyMove(w, Look))
  {
    var v := ApplyMove(w, Look);
    assert Remaining(v) == [];
    assert LastCalls(v.sess.llm) == LastCalls(v.sess.llm) + [];
  }

  /** Going round processToolCalls' loop. */
  lemma {:induction false} LoopKeeps(w: World, m: Move)
    requires Shaped(w) && OneWaits(w) && Accounted(w) && w.owner.Works() && CanMove(w, m)
    requires m.Look? || m.Finish?
    ensures Accounted(ApplyMove(w, m))
  {
    if m.Look? && w.ctl.stop {
      HaltKeeps(w);
    } else if m.Look? {
      GoingOnKeeps(w, w.ctl, w.groupCut, Next(w.work.rest));
    } else {
      FinishKeeps(w);
    }
  }

  lemma {:induction false} FinishKeeps(w: World)
    requires OneWaits(w) && Accounted(w) && w.owner.Works() && CanMove(w, Finish) && !w.owner.First?
    ensures Accounted(ApplyMove(w, Finish))
  {
    var v := ApplyMove(w, Finish);
    assert Remaining(v) == [] && Remaining(w) == [];
    Carried(w, v);
  }

  lemma {:induction false} ReportKeeps(w: World, m: Move)
    requires Shaped(w) && Accounted(w) && w.owner.Works() && CanMove(w, m)
    requires m.AskBad? || m.Deny? || m.Reject? || m.Report? || m.TasksReport? || m.Deliver?
    ensures Accounted(ApplyMove(w, m))
  {
    var k := w.work;
    match m
    case AskBad(text) => AnsweredKeeps(w, "Error: " + text, "error", Settled(k.tc, k.rest));
    case Deny(text) => AnsweredKeeps(w, "Error: " + text, "denied", Settled(k.tc, k.rest));
    case Reject(text) => AnsweredKeeps(w, "Error: " + text, "error", Settled(k.tc, k.rest));
    case Report(text, status) => AnsweredKeeps(w, text, status, Clearing(k.tc, k.rest));
    case TasksReport(text, status) => AnsweredKeeps(w, text, status, Settled(k.tc, k.rest));
    case Deliver => AnsweredKeeps(w, k.text, k.status, Settled(k.tc, k.rest));
  }

  lemma {:induction false} MoveKeeps(w: World, m: Move)
    requires Good(w) && w.owner.Works() && CanMove(w, m)
    ensures Accounted(ApplyMove(w, m))
  {
    match m
    case Permit => EnterKeeps(w, m);
    case Enter => EnterKeeps(w, m);
    case Mark => EnterKeeps(w, m);
    case Clear => ClearKeeps(w);
    case ClearAgain => ClearAgainKeeps(w);
    case TasksCut => TasksCutKeeps(w);
    case ShowRow(_) => ShowRowKeeps(w, m);
    case Ask(id) => PauseKeeps(w, id, true);
    case NeedApproval(id) => PauseKeeps(w, id, false);
    case Look => LoopKeeps(w, m);
    case Finish => LoopKeeps(w, m);
    case _ => ReportKeeps(w, m);
  }

  /** A late result -- a stop's report, a resumed group's -- is none of a turn left to itself. */
  lemma {:induction false} LateKeeps(w: World, callId: string, text: string, status: string, late: set<string>,
                                     own: bool)
    requires Accounted(w) && late <= w.late
    requires own ==> w.own && callId !in IdSet(LastCalls(w.sess.llm))
    ensures Accounted(w.(sess := AnswerCall(w.sess, callId, text, status), late := late, own := own))
  {
    var v := w.(sess := AnswerCall(w.sess, callId, text, status), late := late, own := own);
    ResultArrives(w.sess, callId, text, status);
    if own {
      assert Results(w.sess.llm) + [] == Results(w.sess.llm);
    }
    SameResults(w, v);
  }

  lemma {:induction false} SameResults(w: World, v: World)
    requires Accounted(w) && LastCalls(v.sess.llm) == LastCalls(w.sess.llm)
    requires v == w.(sess := w.sess.(messages := v.sess.messages, llm := v.sess.llm), late := v.late, own := v.own)
    requires v.late <= w.late && (v.own ==> w.own && Results(v.sess.llm) == Results(w.sess.llm))
    ensures Accounted(v)
  {
    assert Remaining(v) == Remaining(w);
  }

  lemma {:induction false} ReportedKeeps(w: World, e: Event)
    requires Accounted(w) && Enabled(w, e) && (e.StopReport? || e.Resumed?)
    ensures Accounted(Apply(w, e))
  {
    if e.StopReport? {
      LateKeeps(w, e.callId, STOPPED, "interrupted", w.late - {e.callId}, w.own);
    } else {
      LateKeeps(w, e.callId, e.text, e.status, w.late, StaysOwn(w, e));
    }
  }

  /** Whatever becomes the last turn when no calls are in hand. */
  lemma {:induction false} NothingHeld(v: World)
    requires Remaining(v) == [] && !v.owner.First? && !v.owner.Taking? && !v.own
    ensures Accounted(v)
  {
    assert LastCalls(v.sess.llm) == LastCalls(v.sess.llm) + [];
  }

  lemma {:induction false} UserKeeps(w: World, e: Event)
    requires Shaped(w) && Enabled(w, e) && !Crosses(w, e) && (e.Send? || e.Force? || e.Rewind?)
    ensures Good(Apply(w, e))
  {
    ShapedStep(w, e);
    LeavesNothing(w, e);
    NothingHeld(Apply(w, e));
  }

  lemma {:induction false} LeavesNothing(w: World, e: Event)
    requires Enabled(w, e) && !Crosses(w, e) && (e.Send? || e.Force? || e.Rewind?)
    ensures var v := Apply(w, e);
            && Remaining(v) == [] && OneWaits(v) && !v.owner.First? && !v.owner.Taking? && !v.own
  {
  }

  /** An answer resolves the one thing that waits, and the queue is what comes after it. */
  lemma {:induction false} AnswerKeeps(w: World, e: Event)
    requires Good(w) && Enabled(w, e) && (e.Approve? || e.Decline? || e.Answer?)
    ensures Accounted(Apply(w, e))
  {
    var v := Apply(w, e);
    TheOneThatWaits(w, e);
    assert Remaining(w) == WaitingCalls(w.sess) + w.sess.queue;
    assert Remaining(v) == Remaining(w);
    AnswerAccounted(w, v);
  }

  lemma {:induction false} TheOneThatWaits(w: World, e: Event)
    requires OneWaits(w) && Enabled(w, e) && (e.Approve? || e.Decline? || e.Answer?)
    ensures w.sess.Waiting() && w.owner.Nobody?
    ensures var v := Apply(w, e);
            && v.owner.First? && WaitingCalls(w.sess) == [v.owner.resolved] && v.sess.queue == w.sess.queue
            && v.work.Left() == [v.owner.resolved]
  {
    AnswerWork(w, e);
    if e.Answer? {
      OneOf(w.sess.questions, w.sess.approvals);
    } else {
      OneOf(w.sess.approvals, w.sess.questions);
    }
  }

  lemma {:induction false} AnswerWork(w: World, e: Event)
    requires Enabled(w, e) && (e.Approve? || e.Decline? || e.Answer?)
    ensures var v := Apply(w, e); v.owner.First? && v.work.Left() == [v.owner.resolved]
  {
    var v := Apply(w, e);
    assert [v.owner.resolved] + [] == [v.owner.resolved];
  }

  lemma {:induction false} OneOf(some: seq<Pending>, other: seq<Pending>)
    requires some != [] && |some| + |other| <= 1
    ensures CallsOf(some) == [some[0].call] && CallsOf(other) == []
    ensures CallsOf(some) + CallsOf(other) == CallsOf(other) + CallsOf(some) == [some[0].call]
  {
  }

  lemma {:induction false} AnswerAccounted(w: World, v: World)
    requires Accounted(w) && v.sess.llm == w.sess.llm && Remaining(v) == Remaining(w)
    requires v.owner.First? && Remaining(w) == [v.owner.resolved] + v.sess.queue
    requires v.own ==> w.own && v.filled == w.filled && StillUndisturbed(w, v)
    ensures Accounted(v)
  {
  }

  /** The working thread hands over, or is through with the turn, or paused on a call. */
  lemma {:induction false} ThreadSame(w: World, e: Event)
    requires Shaped(w) && OneWaits(w) && Enabled(w, e)
    requires e.FirstDone? || e.Take? || e.RestDone? || e.WorkDrained? || e.WorkHalted? || e.Restart?
    ensures SameAccount(w, Apply(w, e))
  {
    if e.FirstDone? {
      assert [] + w.sess.queue == w.sess.queue;
    }
  }

  lemma {:induction false} ThreadKeeps(w: World, e: Event)
    requires Good(w) && Enabled(w, e)
    requires e.FirstDone? || e.Take? || e.RestDone? || e.WorkDrained? || e.WorkHalted? || e.Restart?
    ensures Accounted(Apply(w, e))
  {
    ThreadSame(w, e);
    Carried(w, Apply(w, e));
  }

  lemma {:induction false} RunLoopSame(w: World, e: Event)
    requires Enabled(w, e)
    requires w.own && w.owner.Works() && w.work.InTasks? ==> !w.groupCut
    requires e.Start? || e.Spawned? || e.Refused? || e.Head? || e.Begin? || e.Return? || e.Fail? || e.Check? || e.Exit?
    ensures SameAccount(w, Apply(w, e))
  {
    var v := Apply(w, e);
    assert v.sess == w.sess && v.owner == w.owner && v.work == w.work;
  }

  lemma {:induction false} RunLoopKeeps(w: World, e: Event)
    requires Accounted(w) && Enabled(w, e)
    requires e.Start? || e.Spawned? || e.Refused? || e.Head? || e.Begin? || e.Return? || e.Fail? || e.Check? || e.Exit?
    ensures Accounted(Apply(w, e))
  {
    RunLoopSame(w, e);
    Carried(w, Apply(w, e));
  }

  lemma {:induction false} NoiseSame(w: World, e: Event)
    requires Enabled(w, e) && (e.StopNow? || e.Row?)
    requires w.own && w.owner.Works() && w.work.InTasks? ==> !w.groupCut
    ensures SameAccount(w, Apply(w, e))
  {
  }

  lemma {:induction false} NoiseKeeps(w: World, e: Event)
    requires Accounted(w) && Enabled(w, e) && (e.StopNow? || e.Row?)
    ensures Accounted(Apply(w, e))
  {
    NoiseSame(w, e);
    Carried(w, Apply(w, e));
  }

  // ---------- What the backfill adds ----------

  lemma {:induction false} OnlyMembers(ids: seq<string>, mine: set<string>, id: string)
    ensures id in Only(ids, mine) <==> id in ids && id in mine
  {
    if ids != [] {
      OnlyMembers(Front(ids), mine, id);
      assert ids == Front(ids) + [Last(ids)];
    }
  }

  lemma {:induction false} OnlyMore(ids: seq<string>, more: seq<string>, mine: set<string>)
    requires forall id | id in more :: id in mine
    ensures Only(ids + more, mine) == Only(ids, mine) + more
  {
    if more == [] {
      assert ids + more == ids;
      assert Only(ids, mine) + more == Only(ids, mine);
    } else {
      var most, last := Front(more), Last(more);
      assert more == most + [last] && last in more;
      OnlyMore(ids, most, mine);
      assert Front(ids + more) == ids + most && Last(ids + more) == last;
      Assoc(Only(ids, mine), most, [last]);
    }
  }

  /** What the backfill adds are results of the last turn's calls. */
  lemma {:induction false} ResultsFilled(llm: seq<Message>)
    ensures LastCalls(EnsureComplete(llm)) == LastCalls(llm)
    ensures Results(EnsureComplete(llm)) == Results(llm) + Ids(Missing(llm))
  {
    BackfillOnto(llm, Missing(llm));
    var more := Ids(Missing(llm));
    forall id | id in more ensures id in IdSet(LastCalls(llm)) {
      MissingIsOfLastTurn(llm, id);
    }
    OnlyMore(TailResults(llm), more, IdSet(LastCalls(llm)));
  }

  lemma {:induction false} MissingIsOfLastTurn(llm: seq<Message>, id: string)
    requires id in Ids(Missing(llm))
    ensures id in IdSet(LastCalls(llm))
  {
    var k :| 0 <= k < |Missing(llm)| && Ids(Missing(llm))[k] == id;
    UnansweredMembers(LastCalls(llm), TailResults(llm), Missing(llm)[k]);
  }

  /** Every call of the turn has a result of its own exactly when none remains. */
  lemma {:induction false} AnsweredIff(calls: seq<ToolCall>, held: seq<ToolCall>, results: seq<string>)
    requires InBalance(calls, held, results, false) && Distinct(Ids(calls))
    ensures held == [] <==> forall c | c in calls :: c.id in results
  {
    var done :| Splits(done, calls, held, results, false);
    var ids, k := Ids(calls), |done|;
    assert forall i | 0 <= i < k :: ids[i] == results[i];
    if held == [] {
      forall c | c in calls ensures c.id in results {
        var i :| 0 <= i < |calls| && calls[i] == c;
        assert ids[i] == c.id;
      }
    } else {
      assert calls[k] in calls && ids[k] == calls[k].id && ids[k] !in results;
    }
  }

  /** On a turn left to itself the backfill has something to add exactly when calls remain:
      otherwise it only ever serves turns that were stopped or overtaken. */
  lemma {:induction false} BackfillIdleIff(w: World)
    requires Accounted(w) && w.own && !w.filled
    ensures Missing(w.sess.llm) == [] <==> Remaining(w) == []
  {
    var llm := w.sess.llm;
    var calls := LastCalls(llm);
    AnsweredIff(calls, Remaining(w), Results(llm));
    NothingUnanswered(calls, TailResults(llm));
    forall c | c in calls ensures c.id != "" && (c.id in Results(llm) <==> c.id in TailResults(llm)) {
      OnlyMembers(TailResults(llm), IdSet(calls), c.id);
      assert c.id in IdSet(calls);
    }
  }

  lemma {:induction false} LoadKeeps(w: World)
    requires Accounted(w) && w.run.Loading?
    ensures Accounted(Apply(w, Load))
  {
    LoadLeaves(w);
    if w.sess.Waiting() {
      Carried(w, Apply(w, Load));
    } else {
      ResultsFilled(w.sess.llm);
      FilledIn(w, Apply(w, Load));
    }
  }

  /** What a run loop's copy of the transcript changes. */
  lemma {:induction false} LoadLeaves(w: World)
    requires w.run.Loading?
    requires w.own && w.owner.Works() && w.work.InTasks? ==> !w.groupCut
    ensures var v := Apply(w, Load);
            && Remaining(v) == Remaining(w) && (w.sess.Waiting() ==> SameAccount(w, v))
            && (!w.sess.Waiting() ==>
                  && v.sess.llm == EnsureComplete(w.sess.llm)
                  && v == w.(sess := w.sess.(llm := v.sess.llm), run := v.run, calm := v.calm, filled := v.filled)
                  && (v.filled <==> w.filled || Missing(w.sess.llm) != []))
  {
  }

  lemma {:induction false} FilledIn(w: World, v: World)
    requires Accounted(w) && Remaining(v) == Remaining(w) && LastCalls(v.sess.llm) == LastCalls(w.sess.llm)
    requires v == w.(sess := w.sess.(llm := v.sess.llm), run := v.run, calm := v.calm, filled := v.filled)
    requires Results(v.sess.llm) == Results(w.sess.llm) + Ids(Missing(w.sess.llm))
    requires v.filled <==> w.filled || Missing(w.sess.llm) != []
    ensures Accounted(v)
  {
    if w.own {
      MoreResults(LastCalls(w.sess.llm), Remaining(w), Results(w.sess.llm), Ids(Missing(w.sess.llm)), w.filled);
    }
  }

  lemma {:induction false} MoreResults(calls: seq<ToolCall>, held: seq<ToolCall>, results: seq<string>,
                                       more: seq<string>, filled: bool)
    requires InBalance(calls, held, results, filled)
    ensures InBalance(calls, held, results + more, filled || more != [])
  {
    var done :| Splits(done, calls, held, results, filled);
    if more == [] {
      assert results + more == results;
    }
    assert Splits(done, calls, held, results + more, filled || more != []);
  }

  /** What a reply leaves: a new turn, whose calls are all to be handled. */
  lemma {:induction false} ReplyBegins(w: World, e: Event)
    requires Shaped(w) && Enabled(w, e) && e.Reply? && !Crosses(w, e)
    ensures var v := Apply(w, e);
            && v.sess.llm == w.sess.llm + [Assistant(e.content, e.calls)] && Remaining(v) == e.calls
            && !v.owner.First? && !v.owner.Taking? && !v.filled
  {
  }

  lemma {:induction false} ReplyUndisturbed(w: World, e: Event)
    requires Shaped(w) && Enabled(w, e) && e.Reply? && !Crosses(w, e) && LastCalls(Apply(w, e).sess.llm) == e.calls
    ensures Apply(w, e).own ==> Undisturbed(Apply(w, e))
  {
  }

  lemma {:induction false} ReplyKeeps(w: World, e: Event)
    requires Shaped(w) && Enabled(w, e) && !Crosses(w, e) && e.Reply?
    ensures Good(Apply(w, e))
  {
    AppendSpeaker(w.sess.llm, Assistant(e.content, e.calls));
    ReplyBegins(w, e);
    ReplyUndisturbed(w, e);
    NewTurn(Apply(w, e), e.calls);
    ShapedStep(w, e);
    NoneWaitsYet(w, e);
  }

  /** A turn that has just begun. */
  lemma {:induction false} NewTurn(v: World, calls: seq<ToolCall>)
    requires LastCalls(v.sess.llm) == calls && TailResults(v.sess.llm) == [] && Remaining(v) == calls
    requires !v.owner.First? && !v.owner.Taking? && !v.filled && (v.own ==> Undisturbed(v))
    ensures Accounted(v)
  {
    assert calls == [] + calls && Splits([], calls, calls, Results(v.sess.llm), false);
  }

  lemma {:induction false} NoneWaitsYet(w: World, e: Event)
    requires Enabled(w, e) && e.Reply? && !Crosses(w, e)
    ensures OneWaits(Apply(w, e))
  {
  }

  /** A turn that becomes the last one with nothing in hand or waiting is calm, whatever came
      before. */
  lemma {:induction false} BeginsCalm(w: World, e: Event)
    requires Shaped(w) && Enabled(w, e) && !Crosses(w, e) && (e.Send? || e.Force? || e.Rewind? || e.Reply?)
    ensures Good(Apply(w, e))
  {
    if e.Reply? {
      ReplyKeeps(w, e);
    } else {
      UserKeeps(w, e);
    }
  }

  lemma {:induction false} AccountedStep(w: World, e: Event)
    requires Good(w) && Enabled(w, e) && !e.Working? && !e.Send? && !e.Force? && !e.Rewind? && !e.Reply?
    ensures Accounted(Apply(w, e))
  {
    if e.StopReport? || e.Resumed? {
      ReportedKeeps(w, e);
    } else if e.Load? {
      LoadKeeps(w);
    } else if e.Approve? || e.Decline? || e.Answer? {
      AnswerKeeps(w, e);
    } else if e.StopNow? || e.Row? {
      NoiseKeeps(w, e);
    } else if e.FirstDone? || e.Take? || e.RestDone? || e.WorkDrained? || e.WorkHalted? || e.Restart? {
      ThreadKeeps(w, e);
    } else {
      RunLoopKeeps(w, e);
    }
  }

  lemma {:induction false} WorkingIsMove(w: World, m: Move)
    requires Enabled(w, Working(m))
    ensures Apply(w, Working(m)) == ApplyMove(w, m)
  {
  }

  lemma {:induction false} GoodStep(w: World, e: Event)
    requires Good(w) && Enabled(w, e) && !e.Send? && !e.Force? && !e.Rewind? && !e.Reply?
    ensures Good(Apply(w, e))
  {
    if e.Working? {
      MoveKeeps(w, e.move);
      ShapedMove(w, e.move);
      OneWaitsMove(w, e.move);
      WorkingIsMove(w, e.move);
    } else {
      AccountedStep(w, e);
      ShapedStep(w, e);
      OneWaitsStep(w, e);
    }
  }

  lemma {:induction false} ShapedAlways(w: World, e: Event)
    requires Shaped(w) && Enabled(w, e)
    ensures Shaped(Apply(w, e))
  {
    if e.Working? {
      ShapedMove(w, e.move);
      WorkingIsMove(w, e.move);
    } else {
      ShapedStep(w, e);
    }
  }

  lemma {:induction false} HistoryStep(w: World, e: Event)
    requires Enabled(w, e)
    ensures Apply(w, e).calm == StaysCalm(w, e) && Apply(w, e).own == StaysOwn(w, e)
  {
  }

  lemma {:induction false} KeptStep(w: World, e: Event)
    requires Kept(w) && Enabled(w, e)
    ensures Kept(Apply(w, e))
  {
    ShapedAlways(w, e);
    HistoryStep(w, e);
    if StaysCalm(w, e) {
      if e.Send? || e.Force? || e.Rewind? || e.Reply? {
        BeginsCalm(w, e);
      } else {
        GoodStep(w, e);
      }
    }
  }

  // ---------- Whole runs ----------

  lemma {:induction false} KeptOn(w: World, es: seq<Event>)
    requires Kept(w) && Legal(w, es)
    ensures Kept(RunAll(w, es))
  {
    if es != [] {
      KeptOn(w, Front(es));
      KeptStep(RunAll(w, Front(es)), Last(es));
    }
  }

  lemma {:induction false} AlwaysKept(w: World, es: seq<Event>)
    requires AtRest(w) && Legal(w, es)
    ensures Kept(RunAll(w, es))
  {
    RestIsKept(w);
    KeptOn(w, es);
  }

  lemma {:induction false} RestIsKept(w: World)
    requires AtRest(w)
    ensures Kept(w)
  {
    assert LastCalls(w.sess.llm) == LastCalls(w.sess.llm) + [];
  }

  /** The results the transcript has and what remains are the last turn's calls, in order. */
  ghost predicate Split(w: World) {
    InBalance(LastCalls(w.sess.llm), Remaining(w), Results(w.sess.llm), false)
  }

  /** Pause and resume lose, repeat and reorder nothing on a turn whose reply landed while nothing
      waited, exactly until a run loop that comes up meanwhile fills in results for calls in hand:
      in every reachable state of such a turn, while it is left to itself, the calls split in two,
      those answered, in order, and those that remain, if and only if no such results have been
      filled in. */
  lemma {:induction false} PausesConserveCallsIff(w: World, es: seq<Event>)
    requires AtRest(w) && Legal(w, es) && RunAll(w, es).own && RunAll(w, es).calm
    ensures Split(RunAll(w, es)) <==> !RunAll(w, es).filled
  {
    AlwaysKept(w, es);
    var v := RunAll(w, es);
    if v.filled {
      NotBoth(LastCalls(v.sess.llm), Remaining(v), Results(v.sess.llm));
    }
  }

  lemma {:induction false} NotBoth(calls: seq<ToolCall>, held: seq<ToolCall>, results: seq<string>)
    requires InBalance(calls, held, results, true)
    ensures !InBalance(calls, held, results, false)
  {
    var done :| Splits(done, calls, held, results, true);
    forall other ensures !Splits(other, calls, held, results, false) {
      assert |calls| == |done| + |held|;
    }
  }

  /** And a run loop that comes while nothing waits fills them in exactly when calls remain. */
  lemma {:induction false} FillsIff(w: World, es: seq<Event>)
    requires AtRest(w) && Legal(w, es) && RunAll(w, es).own && RunAll(w, es).calm && !RunAll(w, es).filled
    requires RunAll(w, es).run.Loading? && !RunAll(w, es).sess.Waiting()
    ensures Fills(RunAll(w, es), Load) <==> Remaining(RunAll(w, es)) != []
  {
    AlwaysKept(w, es);
    BackfillIdleIff(RunAll(w, es));
  }

  /** While something waits on such a turn, it is one call, and what remains is that one and the
      queue; once nothing waits and nobody works, every call has been answered. */
  lemma {:induction false} PausedOrDone(w: World, es: seq<Event>)
    requires AtRest(w) && Legal(w, es) && RunAll(w, es).own && RunAll(w, es).calm && !RunAll(w, es).filled
    requires RunAll(w, es).owner.Nobody?
    ensures var v := RunAll(w, es);
            var calls, results, waiting := LastCalls(v.sess.llm), Results(v.sess.llm), WaitingCalls(v.sess);
            if v.sess.Waiting() then |waiting| == 1 && Ids(calls) == results + Ids(waiting + v.sess.queue)
            else Ids(calls) == results
  {
    AlwaysKept(w, es);
    var v := RunAll(w, es);
    SplitIds(LastCalls(v.sess.llm), Remaining(v), Results(v.sess.llm));
    assert Results(v.sess.llm) + [] == Results(v.sess.llm);
  }

  lemma {:induction false} SplitIds(calls: seq<ToolCall>, held: seq<ToolCall>, results: seq<string>)
    requires InBalance(calls, held, results, false)
    ensures Ids(calls) == results + Ids(held)
  {
    var done :| Splits(done, calls, held, results, false);
    assert Ids(done + held) == Ids(done) + Ids(held);
  }

  // ---------- How many wait ----------

  /** Each reply with calls lands while nothing waits. */
  ghost predicate NoneRepliesOver(w: World, es: seq<Event>)
    requires Legal(w, es)
  {
    es != [] ==> NoneRepliesOver(w, Front(es)) && !RepliesOver(RunAll(w, Front(es)), Last(es))
  }

  /** Then at most one approval or question waits, whatever crosses what, and none while anyone
      has calls to work on. */
  lemma {:induction false} AtMostOneWaits(w: World, es: seq<Event>)
    requires Shaped(w) && OneWaits(w) && Legal(w, es) && NoneRepliesOver(w, es)
    ensures Shaped(RunAll(w, es)) && OneWaits(RunAll(w, es))
  {
    if es != [] {
      var v, e := RunAll(w, Front(es)), Last(es);
      AtMostOneWaits(w, Front(es));
      if e.Working? {
        ShapedMove(v, e.move);
        OneWaitsMove(v, e.move);
      } else {
        ShapedStep(v, e);
        OneWaitsStep(v, e);
      }
    }
  }

  /** However the run goes on, no two wait before the next reply that lands over one. */
  ghost predicate OneWaitsFrom(w: World) {
    forall es | Legal(w, es) && NoneRepliesOver(w, es) ::
      |RunAll(w, es).sess.approvals| + |RunAll(w, es).sess.questions| <= 1
  }

  /** The first call of a reply, where it pauses. */
  function Pausing(tc: ToolCall, id: string): Move {
    if tc.name == QUESTION then Ask(id) else NeedApproval(id)
  }

  lemma {:induction false} PauseOver(w: World, row: string, id: string)
    requires w.owner.RunLoop? && w.work.Next? && w.work.left != [] && w.sess.Waiting()
    ensures var es := [Working(ShowRow(row)), Working(Pausing(w.work.left[0], id))];
            Legal(w, es) && NoneRepliesOver(w, es)
            && |RunAll(w, es).sess.approvals| + |RunAll(w, es).sess.questions| >= 2
  {
    var tc := w.work.left[0];
    var show, pause := Working(ShowRow(row)), Working(Pausing(tc, id));
    ShowsRow(w, row);
    PausesBeside(Apply(w, show), id);
    TwoSteps(w, show, pause);
  }

  lemma {:induction false} ShowsRow(w: World, row: string)
    requires w.owner.RunLoop? && w.work.Next? && w.work.left != []
    ensures Enabled(w, Working(ShowRow(row)))
    ensures var v := Apply(w, Working(ShowRow(row)));
            && v.owner == w.owner && v.work == Prepared(w.work.left[0], w.work.left[1..])
            && v.sess.approvals == w.sess.approvals && v.sess.questions == w.sess.questions
  {
  }

  lemma {:induction false} PausesBeside(v: World, id: string)
    requires v.owner.RunLoop? && v.work.Prepared? && v.sess.Waiting()
    ensures Enabled(v, Working(Pausing(v.work.tc, id)))
    ensures var s := Apply(v, Working(Pausing(v.work.tc, id))).sess; |s.approvals| + |s.questions| >= 2
  {
  }

  lemma {:induction false} TwoSteps(w: World, e: Event, f: Event)
    requires Enabled(w, e) && Enabled(Apply(w, e), f) && !e.Reply? && !f.Reply?
    ensures Legal(w, [e, f]) && RunAll(w, [e, f]) == Apply(Apply(w, e), f) && NoneRepliesOver(w, [e, f])
  {
    NoStep(w);
    OneMore(w, [], e);
    assert [] + [e] == [e] && [e] + [f] == [e, f];
    OneMore(w, [e], f);
  }

  lemma {:induction false} NoStep(w: World)
    ensures Legal(w, []) && RunAll(w, []) == w && NoneRepliesOver(w, [])
  {
  }

  lemma {:induction false} OneMore(w: World, es: seq<Event>, e: Event)
    requires Legal(w, es) && NoneRepliesOver(w, es) && Enabled(RunAll(w, es), e) && !e.Reply?
    ensures Legal(w, es + [e]) && RunAll(w, es + [e]) == Apply(RunAll(w, es), e) && NoneRepliesOver(w, es + [e])
  {
    Extend(w, es, e);
    assert Front(es + [e]) == es;
  }

  /** Two come to wait exactly through a reply that lands while one does: after such a reply
      its first call can pause beside the one that waits, and after any other the next steps
      keep to one. */
  lemma {:induction false} OneWaitsIff(w: World, es: seq<Event>, reply: Event)
    requires AtRest(w) && Legal(w, es) && NoneRepliesOver(w, es)
    requires reply.Reply? && reply.calls != [] && Enabled(RunAll(w, es), reply)
    ensures OneWaitsFrom(Apply(RunAll(w, es), reply)) <==> !RunAll(w, es).sess.Waiting()
  {
    var v := RunAll(w, es);
    AtMostOneWaits(w, es);
    var next := Apply(v, reply);
    if v.sess.Waiting() {
      PauseOver(next, "", "");
    } else {
      ShapedStep(v, reply);
      OneWaitsStep(v, reply);
      forall fs | Legal(next, fs) && NoneRepliesOver(next, fs)
        ensures |RunAll(next, fs).sess.approvals| + |RunAll(next, fs).sess.questions| <= 1
      {
        AtMostOneWaits(next, fs);
      }
    }
  }

  // ---------- A reply that lands while something waits ----------

  predicate NoReplies(es: seq<Event>) {
    es != [] ==> NoReplies(Front(es)) && !Last(es).Reply?
  }

  /** The run is about one turn: no reply comes, and at its end the turn is left to itself and
      nothing has been filled in. */
  ghost predicate OneTurn(w: World, es: seq<Event>)
    requires Legal(w, es)
  {
    NoReplies(es) && RunAll(w, es).own && !RunAll(w, es).filled
  }

  /** However the turn goes on, its calls stay split. */
  ghost predicate SplitsFrom(w: World) {
    forall es | Legal(w, es) && OneTurn(w, es) :: Split(RunAll(w, es))
  }

  lemma {:induction false} OwnStep(v: World, e: Event)
    requires Enabled(v, e) && !e.Reply? && Apply(v, e).own
    ensures v.own && Apply(v, e).calm == v.calm
  {
    HistoryStep(v, e);
  }

  lemma {:induction false} OwnStaysCalm(w: World, es: seq<Event>)
    requires w.calm && Legal(w, es) && NoReplies(es) && RunAll(w, es).own
    ensures RunAll(w, es).calm
  {
    if es != [] {
      OwnStep(RunAll(w, Front(es)), Last(es));
      OwnStaysCalm(w, Front(es));
    }
  }

  /** The new turn's first call has paused beside the one that waited: more calls remain than the
      turn has. */
  lemma {:induction false} PausedBesideIsNotSplit(w: World, row: string, id: string)
    requires w.owner.RunLoop? && w.work.Next? && w.work.left != [] && w.sess.Waiting()
    requires LastCalls(w.sess.llm) == w.work.left
    ensures var v := Apply(Apply(w, Working(ShowRow(row))), Working(Pausing(w.work.left[0], id)));
            && v.own == w.own && v.filled == w.filled && !Split(v)
  {
    ShowsRow(w, row);
    var v := Apply(w, Working(ShowRow(row)));
    PausesBeside(v, id);
    var u := Apply(v, Working(Pausing(v.work.tc, id)));
    TooMany(LastCalls(u.sess.llm), Remaining(u), Results(u.sess.llm));
  }

  lemma {:induction false} TooMany(calls: seq<ToolCall>, held: seq<ToolCall>, results: seq<string>)
    requires |held| > |calls|
    ensures !InBalance(calls, held, results, false)
  {
    forall done ensures calls != done + held {
      assert |done + held| == |done| + |held|;
    }
  }

  /** A reply with calls begins a turn that every continuation keeps split exactly when nothing
      waited as it landed. */
  lemma {:induction false} ReplyConservesIff(w: World, es: seq<Event>, reply: Event)
    requires AtRest(w) && Legal(w, es) && !RunAll(w, es).ctl.stop
    requires reply.Reply? && reply.calls != [] && Enabled(RunAll(w, es), reply)
    ensures SplitsFrom(Apply(RunAll(w, es), reply)) <==> !RunAll(w, es).sess.Waiting()
  {
    AlwaysKept(w, es);
    if RunAll(w, es).sess.Waiting() {
      ReplyOverUnsplits(RunAll(w, es), reply);
    } else {
      ReplySplits(RunAll(w, es), reply);
    }
  }

  lemma {:induction false} ReplyOverUnsplits(v: World, reply: Event)
    requires v.sess.Waiting() && !v.ctl.stop && reply.Reply? && reply.calls != [] && Enabled(v, reply)
    ensures !SplitsFrom(Apply(v, reply))
  {
    var next := Apply(v, reply);
    AppendSpeaker(v.sess.llm, Assistant(reply.content, reply.calls));
    PauseOver(next, "", "");
    PausedBesideIsNotSplit(next, "", "");
    var show, pause := Working(ShowRow("")), Working(Pausing(reply.calls[0], ""));
    TwoSteps(next, show, pause);
    assert Front([show, pause]) == [show] && Front([show]) == [];
    assert OneTurn(next, [show, pause]);
  }

  lemma {:induction false} ReplySplits(v: World, reply: Event)
    requires Kept(v) && !v.sess.Waiting() && reply.Reply? && reply.calls != [] && Enabled(v, reply)
    ensures SplitsFrom(Apply(v, reply))
  {
    var next := Apply(v, reply);
    KeptStep(v, reply);
    HistoryStep(v, reply);
    forall fs | Legal(next, fs) && OneTurn(next, fs) ensures Split(RunAll(next, fs)) {
      KeptOn(next, fs);
      OwnStaysCalm(next, fs);
    }
  }

  // ---------- The queue of a calm turn ----------

  /** On a calm turn -- stopped or not -- the queue an answering thread takes up is what follows,
      in the last turn, the very call the user just resolved. */
  lemma {:induction false} CalmQueueIsLive(w: World, es: seq<Event>)
    requires AtRest(w) && Legal(w, es) && RunAll(w, es).owner.Taking? && RunAll(w, es).calm
    ensures var v := RunAll(w, es);
            IsSuffix([v.owner.resolved] + v.sess.queue, LastCalls(v.sess.llm))
            && Apply(v, Take).work == Next(v.sess.queue)
  {
    AlwaysKept(w, es);
  }

  // ---------- These are runs of the session ----------

  /** What ProviderRuns sees of an event: at most one of its own. */
  ghost function Seen(w: World, e: Event): Option<Runs.Event>
    requires Enabled(w, e)
  {
    var s := Apply(w, e).sess;
    match e
    case Send(id, content, prompt) => Some(Runs.Send(id, content, prompt))
    case Force(id, content, prompt, tc) => Some(Runs.Force(id, content, prompt, tc))
    case Rewind(messageId) => Some(Runs.Rewind(messageId))
    case FirstDone => None
    case RestDone => None
    case Restart => if w.ctl.running then None else Some(Runs.Start)
    case StopNow => Some(Runs.Stop)
    case StopReport(callId) => Some(Runs.Result(callId, STOPPED, "interrupted"))
    case Resumed(callId, text, status) => Some(Runs.Result(callId, text, status))
    case Row(entry) => Some(Runs.Row(entry))
    case Start => Some(Runs.Start)
    case Spawned => Some(Runs.Spawned)
    case Refused => Some(Runs.Refused)
    case Head => Some(Runs.Head)
    case Load => Some(Runs.Load)
    case Begin => Some(Runs.Begin)
    case Return => Some(Runs.Return)
    case Fail => Some(Runs.Fail)
    case Check => Some(Runs.Check)
    case Reply(id, content, shown, calls) => Some(Runs.Reply(id, content, shown, calls))
    case WorkDrained(again) => Some(Runs.Drained(again))
    case WorkHalted => Some(Runs.Paused)
    case Exit => Some(Runs.Exit)
    case Working(m) => SeenMove(w, m)
    case _ => Some(Runs.Waits(s.approvals, s.questions, s.queue))
  }

  function SeenMove(w: World, m: Move): Option<Runs.Event>
    requires CanMove(w, m)
  {
    var s := ApplyMove(w, m).sess;
    match m
    case ShowRow(entryId) => Some(Runs.Row(Entry(entryId, ToolRole, "", "pending", w.work.left[0].id, "")))
    case AskBad(text) => Some(Runs.Result(w.work.tc.id, "Error: " + text, "error"))
    case Deny(text) => Some(Runs.Result(w.work.tc.id, "Error: " + text, "denied"))
    case Reject(text) => Some(Runs.Result(w.work.tc.id, "Error: " + text, "error"))
    case Report(text, status) => Some(Runs.Result(w.work.tc.id, text, status))
    case TasksReport(text, status) => Some(Runs.Result(w.work.tc.id, text, status))
    case Deliver => Some(Runs.Result(w.work.tc.id, w.work.text, w.work.status))
    case _ => if s == w.sess then None else Some(Runs.Waits(s.approvals, s.questions, s.queue))
  }

  ghost predicate Mirrors(w: World, v: World, r: Option<Runs.Event>) {
    match r
    case None => Chat(v) == Chat(w)
    case Some(p) => Runs.Allowed(Chat(w), p) && Runs.Apply(Chat(w), p) == Chat(v)
  }

  /** What ProviderRuns asks of the users of a session. */
  ghost predicate Disciplined(w: World, e: Event) {
    e.Send? || e.Force? ==> !w.ctl.running && Owed(w.sess.llm) == {}
  }

  ghost predicate AllDisciplined(w: World, es: seq<Event>)
    requires Legal(w, es)
  {
    es != [] ==> AllDisciplined(w, Front(es)) && Disciplined(RunAll(w, Front(es)), Last(es))
  }

  lemma {:induction false} SeenDiscipline(w: World, e: Event)
    requires Enabled(w, e) && Disciplined(w, e) && Seen(w, e).Some?
    ensures Runs.Disciplined(Chat(w), Seen(w, e).value)
  {
    if e.Working? {
      MoveIsNoTurn(w, e.move);
    }
  }

  lemma {:induction false} MoveIsNoTurn(w: World, m: Move)
    requires CanMove(w, m) && SeenMove(w, m).Some?
    ensures !SeenMove(w, m).value.Send? && !SeenMove(w, m).value.Force?
  {
  }

  lemma {:induction false} MoveMirrors(w: World, m: Move)
    requires CanMove(w, m)
    ensures Mirrors(w, ApplyMove(w, m), SeenMove(w, m))
  {
  }

  lemma {:induction false} RunLoopMirrors(w: World, e: Event)
    requires Shaped(w) && Enabled(w, e)
    requires e.Start? || e.Spawned? || e.Refused? || e.Head? || e.Begin? || e.Return? || e.Fail?
    ensures Mirrors(w, Apply(w, e), Seen(w, e))
  {
  }

  lemma {:induction false} ReplyMirrors(w: World, e: Event)
    requires Shaped(w) && Enabled(w, e) && (e.Load? || e.Check? || e.Reply?)
    ensures Mirrors(w, Apply(w, e), Seen(w, e))
  {
  }

  lemma {:induction false} LeavingMirrors(w: World, e: Event)
    requires Shaped(w) && Enabled(w, e) && (e.WorkDrained? || e.WorkHalted? || e.Exit?)
    ensures Mirrors(w, Apply(w, e), Seen(w, e))
  {
  }

  lemma {:induction false} UserMirrors(w: World, e: Event)
    requires Enabled(w, e) && (e.Send? || e.Force? || e.Rewind? || e.Approve? || e.Decline? || e.Answer?)
    ensures Mirrors(w, Apply(w, e), Seen(w, e))
  {
  }

  lemma {:induction false} OtherMirrors(w: World, e: Event)
    requires Shaped(w) && Enabled(w, e)
    requires e.FirstDone? || e.Take? || e.RestDone? || e.Restart? || e.StopNow? || e.StopReport? || e.Resumed? || e.Row?
    ensures Mirrors(w, Apply(w, e), Seen(w, e))
  {
  }

  lemma {:induction false} StepMirrors(w: World, e: Event)
    requires Shaped(w) && Enabled(w, e)
    ensures Mirrors(w, Apply(w, e), Seen(w, e))
  {
    if e.Working? {
      MoveMirrors(w, e.move);
    } else if e.Start? || e.Spawned? || e.Refused? || e.Head? || e.Begin? || e.Return? || e.Fail? {
      RunLoopMirrors(w, e);
    } else if e.Load? || e.Check? || e.Reply? {
      ReplyMirrors(w, e);
    } else if e.WorkDrained? || e.WorkHalted? || e.Exit? {
      LeavingMirrors(w, e);
    } else if e.Send? || e.Force? || e.Rewind? || e.Approve? || e.Decline? || e.Answer? {
      UserMirrors(w, e);
    } else {
      OtherMirrors(w, e);
    }
  }

  ghost function Emitted(w: World, e: Event): seq<Runs.Event>
    requires Enabled(w, e)
  {
    match Seen(w, e)
    case None => []
    case Some(p) => [p]
  }

  ghost function SeenRun(w: World, es: seq<Event>): seq<Runs.Event>
    requires Legal(w, es)
  {
    if es == [] then [] else SeenRun(w, Front(es)) + Emitted(RunAll(w, Front(es)), Last(es))
  }

  ghost predicate Follows(c: Runs.Chat, ps: seq<Runs.Event>, d: Runs.Chat, disciplined: bool) {
    && Runs.Legal(c, ps) && Runs.RunAll(c, ps) == d
    && (disciplined ==> Runs.AllDisciplined(c, ps))
  }

  lemma {:induction false} MirrorOnce(c: Runs.Chat, ps: seq<Runs.Event>, w: World, e: Event, disciplined: bool)
    requires Follows(c, ps, Chat(w), disciplined) && Shaped(w) && Enabled(w, e)
    ensures Follows(c, ps + Emitted(w, e), Chat(Apply(w, e)), disciplined && Disciplined(w, e))
  {
    StepMirrors(w, e);
    if Seen(w, e).None? {
      assert ps + [] == ps;
    } else {
      if Disciplined(w, e) {
        SeenDiscipline(w, e);
      }
      Runs.Extend(c, ps, Seen(w, e).value);
    }
  }

  /** Every run here is a run of ProviderRuns, and a disciplined one if its users are. */
  lemma {:induction false} RunsMirror(w: World, es: seq<Event>)
    requires AtRest(w) && Legal(w, es)
    ensures Follows(Chat(w), SeenRun(w, es), Chat(RunAll(w, es)), AllDisciplined(w, es))
  {
    if es != [] {
      RunsMirror(w, Front(es));
      AlwaysKept(w, Front(es));
      MirrorOnce(Chat(w), SeenRun(w, Front(es)), RunAll(w, Front(es)), Last(es), AllDisciplined(w, Front(es)));
    }
  }

  /** So when user turns and workflow rounds keep off a running session and an open call, then
      through every pause, resume, stop and rewind each request obeys the provider's rule. */
  lemma {:induction false} EveryRequestIsComplete(w: World, es: seq<Event>)
    requires AtRest(w) && Legal(w, es) && AllDisciplined(w, es) && RunAll(w, es).run.Calling?
    ensures Complete(RunAll(w, es).run.request)
  {
    RunsMirror(w, es);
    Runs.EveryRequestIsComplete(Chat(w), SeenRun(w, es));
  }
}
