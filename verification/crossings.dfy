/** Runs of a new session in which something crosses an answer at work, and what comes of it: a
    queue of a turn that is gone is taken up, two approvals wait at once, a call is answered
    twice. */
module Crossings {
  import opened Common
  import opened Transcript
  import opened Sessions
  import opened Controls
  import opened Turns
  import opened Answers
  import opened TurnRace
  import Runs = ProviderRuns
  import opened ResultRuns

  /** A new session, with the system prompt only. */
  function NewSession(prompt: string): World {
    World(Session([], [System(prompt)], [], [], []), Flags(false, false, None, {}), false, Runs.NoRun, Nobody, Drained,
          {}, true, false, false, {})
  }

  lemma {:induction false} NewSessionRests(prompt: string)
    ensures AtRest(NewSession(prompt)) && Recorded(NewSession(prompt))
  {
    var llm := [System(prompt)];
    assert Front(llm) == [] && Last(llm) == System(prompt);
    assert Fine([]) && AllIds([]) == {} && IdsApart([]) && MessageTurns([]) == [];
    assert Fine(llm) && AllIds(llm) == {} && IdsApart(llm) && MessageTurns(llm) == [];
  }

  ghost predicate Reaches(w: World, v: World) {
    exists es :: Legal(w, es) && RunAll(w, es) == v
  }

  /** Worlds that no step leads out of. */
  ghost predicate Closed(r: iset<World>) {
    forall v, e | v in r && Enabled(v, e) :: Apply(v, e) in r
  }

  ghost function Reachable(w: World): iset<World> {
    iset v | Reaches(w, v)
  }

  lemma {:induction false} Go(r: iset<World>, v: World, e: Event)
    requires Closed(r) && v in r && Enabled(v, e)
    ensures Apply(v, e) in r
  {
  }

  lemma {:induction false} OneStepOn(w: World, v: World, e: Event)
    requires Reaches(w, v) && Enabled(v, e)
    ensures Reaches(w, Apply(v, e))
  {
    var es :| Legal(w, es) && RunAll(w, es) == v;
    Extend(w, es, e);
  }

  lemma {:induction false} ReachableIsClosed(w: World)
    ensures Closed(Reachable(w)) && w in Reachable(w)
  {
    assert Legal(w, []) && RunAll(w, []) == w;
    forall v, e | v in Reachable(w) && Enabled(v, e) ensures Apply(v, e) in Reachable(w) {
      OneStepOn(w, v, e);
    }
  }

  // ---------- Steps taken together ----------

  /** The user speaks, and the run loop that this starts has the provider's reply in hand. */
  function Asked(v: World, id: string, content: string, prompt: string): World {
    v.(sess := SendUser(v.sess, id, content, prompt), ctl := StartSection(v.ctl), run := Runs.Checked,
       calm := !InHand(v), own := false, filled := false)
  }

  lemma {:induction false} NothingMissing(llm: seq<Message>)
    requires LastCalls(llm) == []
    ensures EnsureComplete(llm) == llm
  {
    assert llm + Backfill([]) == llm;
  }

  lemma {:induction false} Speak(r: iset<World>, v: World, id: string, content: string, prompt: string)
    returns (next: World)
    requires Closed(r) && v in r && !v.ctl.running && v.run.NoRun? && !v.sess.Waiting()
    ensures next in r
    ensures next == v.(sess := SendUser(v.sess, id, content, prompt), ctl := StartSection(v.ctl), run := Runs.AtTop,
                       calm := !InHand(v), own := false, filled := false)
  {
    Go(r, v, Send(id, content, prompt));
    var v1 := Apply(v, Send(id, content, prompt));
    Go(r, v1, Start);
    var v2 := Apply(v1, Start);
    Go(r, v2, Spawned);
    next := Apply(v2, Spawned);
  }

  lemma {:induction false} Ask(r: iset<World>, v: World, id: string, content: string, prompt: string)
    requires Closed(r) && v in r && !v.ctl.running && v.run.NoRun? && !v.sess.Waiting()
    ensures Asked(v, id, content, prompt) in r
  {
    var v0 := Speak(r, v, id, content, prompt);
    SendKeepsRuleIff(v.sess, id, content, prompt);
    NothingMissing(v0.sess.llm);
    Go(r, v0, Head);
    var v1 := v0.(run := Runs.Loading);
    Go(r, v1, Load);
    var v2 := v1.(run := Runs.Snapped(v1.sess.llm));
    assert Apply(v1, Load) == v2;
    Request(r, v2);
  }

  lemma {:induction false} Request(r: iset<World>, v: World)
    requires Closed(r) && v in r && v.run.Snapped? && !v.ctl.stop
    ensures v.(run := Runs.Checked) in r
  {
    Go(r, v, Begin);
    var v1 := v.(run := Runs.Calling(v.run.request));
    Go(r, v1, Return);
    var v2 := v1.(run := Runs.Returned);
    Go(r, v2, Check);
  }

  /** The reply's first call waits for an approval. */
  function PausedOn(v: World, calls: seq<ToolCall>, row: string, id: string): World
    requires calls != []
  {
    v.(sess := v.sess.(llm := v.sess.llm + [Assistant("", calls)],
                       messages := v.sess.messages + [Entry(row, ToolRole, "", "pending", calls[0].id, "")],
                       approvals := v.sess.approvals + [Pending(id, calls[0])], queue := calls[1..]),
       run := Runs.Processing, owner := RunLoop, work := Halted, used := v.used + IdSet(calls),
       calm := !v.sess.Waiting(), own := !v.ctl.stop, filled := false)
  }

  lemma {:induction false} PauseOn(r: iset<World>, v: World, calls: seq<ToolCall>, row: string, id: string)
    requires Closed(r) && v in r && v.run.Checked? && v.owner.Nobody? && calls != [] && calls[0].name != QUESTION
    requires FreshCalls(v, calls) && v.used !! IdSet(calls)
    ensures PausedOn(v, calls, row, id) in r
  {
    var reply := Reply("", "", false, calls);
    Go(r, v, reply);
    var v1 := Apply(v, reply);
    Go(r, v1, Working(ShowRow(row)));
    var v2 := Apply(v1, Working(ShowRow(row)));
    assert v2.work == Prepared(calls[0], calls[1..]);
    Go(r, v2, Working(NeedApproval(id)));
    assert Apply(v2, Working(NeedApproval(id))) == PausedOn(v, calls, row, id);
  }

  /** The world in which a turn of two calls has paused on the first one, the run loop on its
      way out. */
  function Paused(prompt: string, a: ToolCall, b: ToolCall): World {
    PausedOn(Asked(NewSession(prompt), "u", "hello", prompt), [a, b], "r", "p").(run := Runs.Leaving, owner := Nobody)
  }

  /** Two ordinary calls with ids of their own. */
  predicate TwoCalls(a: ToolCall, b: ToolCall) {
    && a.id != "" && b.id != "" && a.id != b.id
    && a.name != TASKS && a.name != QUESTION && b.name != TASKS && b.name != QUESTION
  }

  lemma {:induction false} ReachPaused(r: iset<World>, prompt: string, a: ToolCall, b: ToolCall)
    requires Closed(r) && NewSession(prompt) in r && TwoCalls(a, b)
    ensures Paused(prompt, a, b) in r
  {
    var w := NewSession(prompt);
    Ask(r, w, "u", "hello", prompt);
    var v := Asked(w, "u", "hello", prompt);
    assert Ids([a, b]) == [a.id, b.id] && IdSet([a, b]) == {a.id, b.id};
    PauseOn(r, v, [a, b], "r", "p");
    Go(r, PausedOn(v, [a, b], "r", "p"), WorkHalted);
  }

  // ---------- A stop that nobody can report ----------

  /** The approved call, by the thread that answers. */
  function Approved(v: World, a: ToolCall): World {
    v.(sess := v.sess.(approvals := []), owner := First(a), work := Entered(a, []))
  }

  lemma {:induction false} ApproveIt(r: iset<World>, v: World, a: ToolCall, id: string)
    requires Closed(r) && v in r && v.owner.Nobody? && v.sess.approvals == [Pending(id, a)]
    requires !v.ctl.stop && a.name != TASKS
    ensures Approved(v, a) in r
  {
    Go(r, v, Approve(0));
    var v1 := v.(sess := v.sess.(approvals := []), owner := First(a), work := Turns.Work.Allowed(a, []));
    assert Apply(v, Approve(0)) == v1;
    Go(r, v1, Working(Enter));
    assert Apply(v1, Working(Enter)) == Approved(v, a);
  }

  /** The user approves before the paused run loop is gone: the tool runs, and the run loop is
      still on its way out. */
  lemma {:induction false} AnswerOvertakesUnwind(prompt: string, a: ToolCall, b: ToolCall) returns (v: World)
    requires TwoCalls(a, b)
    ensures Reaches(NewSession(prompt), v) && v.owner.First? && JustMarked(v) && v.run.Leaving?
  {
    var r := Reachable(NewSession(prompt));
    ReachableIsClosed(NewSession(prompt));
    v := OvertakesUnwind(r, prompt, a, b);
  }

  lemma {:induction false} OvertakesUnwind(r: iset<World>, prompt: string, a: ToolCall, b: ToolCall) returns (v: World)
    requires Closed(r) && NewSession(prompt) in r && TwoCalls(a, b)
    ensures v in r && v.owner.First? && JustMarked(v) && v.run.Leaving?
  {
    ReachPaused(r, prompt, a, b);
    var v0 := Paused(prompt, a, b);
    ApproveIt(r, v0, a, "p");
    var v1 := Approved(v0, a);
    Go(r, v1, Working(Mark));
    v := Apply(v1, Working(Mark));
  }

  // ---------- Idle sessions with an open call ----------

  /** The paused turn with its run loop gone. */
  function Idle(prompt: string, a: ToolCall, b: ToolCall): World {
    Paused(prompt, a, b).(ctl := Flags(false, false, None, {}), run := Runs.NoRun)
  }

  lemma {:induction false} ReachIdle(r: iset<World>, prompt: string, a: ToolCall, b: ToolCall)
    requires Closed(r) && NewSession(prompt) in r && TwoCalls(a, b)
    ensures Idle(prompt, a, b) in r
  {
    ReachPaused(r, prompt, a, b);
    Go(r, Paused(prompt, a, b), Exit);
    assert Apply(Paused(prompt, a, b), Exit) == Idle(prompt, a, b);
  }

  /** What has been said by then. */
  lemma {:induction false} SaidHello(prompt: string)
    ensures Fine(Asked(NewSession(prompt), "u", "hello", prompt).sess.llm)
    ensures Owed(Asked(NewSession(prompt), "u", "hello", prompt).sess.llm) == {}
  {
    var s := NewSession(prompt).sess;
    NewSessionRests(prompt);
    SendKeepsRuleIff(s, "u", "hello", prompt);
    CompleteIff(s.llm);
    assert LastCalls(s.llm) == [] by { assert Front(s.llm) == []; }
  }

  /** An idle session on which Send goes through and breaks the provider's rule. */
  lemma {:induction false} SendOnPausedSession(prompt: string, a: ToolCall, b: ToolCall, e: Runs.Event)
    returns (v: World)
    requires TwoCalls(a, b) && e.Send?
    ensures Reaches(NewSession(prompt), v) && !v.ctl.running && v.sess.Waiting()
    ensures Runs.Sound(Chat(v)) && Owed(v.sess.llm) != {}
    ensures Runs.Allowed(Chat(v), e) && Runs.Broken(Runs.Apply(Chat(v), e))
  {
    ReachableIsClosed(NewSession(prompt));
    ReachIdle(Reachable(NewSession(prompt)), prompt, a, b);
    v := Idle(prompt, a, b);
    IdleOwes(prompt, a, b);
    Runs.SendKeepsTheRuleIff(Chat(v), e.id, e.content, e.prompt);
  }

  lemma {:induction false} IdleOwes(prompt: string, a: ToolCall, b: ToolCall)
    ensures var v := Idle(prompt, a, b); Runs.Sound(Chat(v)) && a.id in Owed(v.sess.llm)
  {
    SaidHello(prompt);
    var said := Asked(NewSession(prompt), "u", "hello", prompt).sess.llm;
    CompleteIff(said);
    AppendSpeaker(said, Assistant("", [a, b]));
    assert a.id in IdSet([a, b]);
  }

  /** A workflow's round that comes while the run loop has the provider's reply in hand. */
  lemma {:induction false} ForceOnReply(prompt: string, e: Runs.Event, reply: Runs.Event) returns (v: World)
    requires e.Force? && reply.Reply?
    ensures Reaches(NewSession(prompt), v) && Runs.Sound(Chat(v)) && Owed(v.sess.llm) == {} && v.run.Checked?
    ensures Runs.Allowed(Chat(v), e) && Runs.Broken(Runs.Apply(Runs.Apply(Chat(v), e), reply))
  {
    var w := NewSession(prompt);
    ReachableIsClosed(w);
    Ask(Reachable(w), w, "u", "hello", prompt);
    v := Asked(w, "u", "hello", prompt);
    SaidHello(prompt);
    Runs.ForceDuringCall(Chat(v), e.id, e.content, e.prompt, e.tc, [], reply);
  }

  // ---------- The approved call runs ----------

  /** The approved call is about to run, the run loop gone. */
  function Running(prompt: string, a: ToolCall, b: ToolCall): World {
    Approved(Idle(prompt, a, b), a)
  }

  lemma {:induction false} ReachRunning(r: iset<World>, prompt: string, a: ToolCall, b: ToolCall)
    requires Closed(r) && NewSession(prompt) in r && TwoCalls(a, b)
    ensures Running(prompt, a, b) in r
  {
    ReachIdle(r, prompt, a, b);
    ApproveIt(r, Idle(prompt, a, b), a, "p");
  }

  function Registered(v: World, a: ToolCall): World {
    v.(ctl := v.ctl.(tool := Some(a)), work := InTool(a, []))
  }

  lemma {:induction false} MarkTool(r: iset<World>, v: World, a: ToolCall)
    requires Closed(r) && v in r && v.owner.Works() && v.work == Entered(a, []) && !v.ctl.stop
    ensures Registered(v, a) in r
  {
    Go(r, v, Working(Mark));
    assert Apply(v, Working(Mark)) == Registered(v, a);
  }

  lemma {:induction false} WinTool(r: iset<World>, v: World, a: ToolCall)
    requires Closed(r) && v in r
    requires v.owner.Works() && v.work == Entered(a, []) && v.ctl == Flags(false, false, None, {})
    ensures v.(work := Won(a, [])) in r
  {
    MarkTool(r, v, a);
    Go(r, Registered(v, a), Working(Clear));
    assert Apply(Registered(v, a), Working(Clear)) == v.(work := Won(a, []));
  }

  lemma {:induction false} RunTool(r: iset<World>, v: World, a: ToolCall)
    requires Closed(r) && v in r
    requires v.owner.Works() && v.work == Entered(a, []) && v.ctl == Flags(false, false, None, {})
    ensures v.(sess := AnswerCall(v.sess, a.id, "ok", "completed"), work := Settled(a, [])) in r
  {
    WinTool(r, v, a);
    var report := Working(Report("ok", "completed"));
    Go(r, v.(work := Won(a, [])), report);
    var v1 := v.(sess := AnswerCall(v.sess, a.id, "ok", "completed"), work := Clearing(a, []));
    assert Apply(v.(work := Won(a, [])), report) == v1;
    Go(r, v1, Working(ClearAgain));
    assert Apply(v1, Working(ClearAgain)) == v1.(work := Settled(a, []));
  }

  /** The approved call has run and is answered; the other one is queued. */
  function Ran(prompt: string, a: ToolCall, b: ToolCall): World {
    var v := Running(prompt, a, b);
    v.(sess := AnswerCall(v.sess, a.id, "ok", "completed"), work := Settled(a, []))
  }

  lemma {:induction false} ReachRan(r: iset<World>, prompt: string, a: ToolCall, b: ToolCall)
    requires Closed(r) && NewSession(prompt) in r && TwoCalls(a, b)
    ensures Ran(prompt, a, b) in r
  {
    ReachRunning(r, prompt, a, b);
    RunTool(r, Running(prompt, a, b), a);
  }

  // ---------- A run loop while an answer is at work ----------

  /** A run loop that another thread starts fills in results for what is missing. */
  function Loaded(v: World): World {
    var llm := EnsureComplete(v.sess.llm);
    v.(sess := v.sess.(llm := llm), ctl := StartSection(v.ctl), run := Runs.Snapped(llm),
       filled := v.filled || Missing(v.sess.llm) != [])
  }

  lemma {:induction false} LoadNow(r: iset<World>, v: World)
    requires Closed(r) && v in r && !v.ctl.running && !v.sess.Waiting()
    ensures Loaded(v) in r
  {
    Go(r, v, Start);
    var v1 := v.(ctl := StartSection(v.ctl), run := Runs.Starting);
    assert Apply(v, Start) == v1;
    Go(r, v1, Spawned);
    var v2 := v1.(run := Runs.AtTop);
    assert Apply(v1, Spawned) == v2;
    LoadTop(r, v2);
  }

  lemma {:induction false} LoadTop(r: iset<World>, v: World)
    requires Closed(r) && v in r && v.run.AtTop? && !v.ctl.stop && !v.sess.Waiting()
    ensures var llm := EnsureComplete(v.sess.llm);
            v.(sess := v.sess.(llm := llm), run := Runs.Snapped(llm),
               filled := v.filled || Missing(v.sess.llm) != []) in r
  {
    Go(r, v, Head);
    var v1 := v.(run := Runs.Loading);
    assert Apply(v, Head) == v1;
    Go(r, v1, Load);
  }

  /** Two calls without a result are missing, and the backfill answers both. */
  lemma {:induction false} BothMissing(llm: seq<Message>, a: ToolCall, b: ToolCall)
    requires LastCalls(llm) == [a, b] && TailResults(llm) == []
    ensures Missing(llm) == [a, b]
    ensures LastCalls(EnsureComplete(llm)) == [a, b] && TailResults(EnsureComplete(llm)) == [a.id, b.id]
  {
    assert [a, b][1..] == [b] && [b][1..] == [];
    assert Unanswered([b], []) == [b];
    BackfillOnto(llm, Missing(llm));
    assert Ids([a, b]) == [a.id, b.id];
  }

  lemma {:induction false} RunningLacksBoth(prompt: string, a: ToolCall, b: ToolCall)
    ensures var llm := Running(prompt, a, b).sess.llm; LastCalls(llm) == [a, b] && TailResults(llm) == []
  {
    AppendSpeaker(Asked(NewSession(prompt), "u", "hello", prompt).sess.llm, Assistant("", [a, b]));
  }

  /** A run loop starts while the approved tool runs, on a turn nobody has stopped, forced,
      rewound or spoken over: it answers both calls for them, and then the tool reports. */
  lemma {:induction false} BackfillUnderAnswer(prompt: string, a: ToolCall, b: ToolCall) returns (v: World)
    requires TwoCalls(a, b)
    ensures Reaches(NewSession(prompt), v) && v.own && v.calm && v.filled
    ensures LastCalls(v.sess.llm) == [a, b] && TailResults(v.sess.llm) == [a.id, b.id, a.id]
    ensures v.owner.First? && v.sess.queue == [b] && !Split(v)
  {
    var r := Reachable(NewSession(prompt));
    ReachableIsClosed(NewSession(prompt));
    v := FilledUnderAnswer(r, prompt, a, b);
  }

  lemma {:induction false} FilledUnderAnswer(r: iset<World>, prompt: string, a: ToolCall, b: ToolCall)
    returns (v: World)
    requires Closed(r) && NewSession(prompt) in r && TwoCalls(a, b)
    ensures v in r && v.own && v.calm && v.filled && v.owner.First? && v.sess.queue == [b] && !Split(v)
    ensures LastCalls(v.sess.llm) == [a, b] && TailResults(v.sess.llm) == [a.id, b.id, a.id]
  {
    ReachRunning(r, prompt, a, b);
    WinTool(r, Running(prompt, a, b), a);
    var v0 := Running(prompt, a, b).(work := Won(a, []));
    LoadNow(r, v0);
    RunningLacksBoth(prompt, a, b);
    BothMissing(v0.sess.llm, a, b);
    var v1, report := Loaded(v0), Working(Report("ok", "completed"));
    Go(r, v1, report);
    v := v1.(sess := AnswerCall(v1.sess, a.id, "ok", "completed"), work := Clearing(a, []));
    assert Apply(v1, report) == v;
    AppendTool(v1.sess.llm, a.id, "ok");
    TooManyResults(v, a, b);
  }

  lemma {:induction false} TooManyResults(v: World, a: ToolCall, b: ToolCall)
    requires LastCalls(v.sess.llm) == [a, b] && TailResults(v.sess.llm) == [a.id, b.id, a.id]
    ensures !Split(v)
  {
    var mine := IdSet([a, b]);
    assert a.id in mine && b.id in mine;
    OnlyMore([], [a.id, b.id, a.id], mine);
    assert [] + [a.id, b.id, a.id] == [a.id, b.id, a.id];
    assert |Results(v.sess.llm)| == 3;
  }

  /** A stop claims the running call; before it reports, a run loop fills in a result for the
      call.  The report then answers the call a second time. */
  lemma {:induction false} StopReportsAfterBackfill(prompt: string, a: ToolCall, b: ToolCall) returns (v: World)
    requires TwoCalls(a, b)
    ensures Reaches(NewSession(prompt), v)
    ensures LastCalls(v.sess.llm) == [a, b] && TailResults(v.sess.llm) == [a.id, b.id, a.id] && !Tidy(v.sess.llm)
  {
    var r := Reachable(NewSession(prompt));
    ReachableIsClosed(NewSession(prompt));
    v := ReportsAfterBackfill(r, prompt, a, b);
  }

  lemma {:induction false} ReportsAfterBackfill(r: iset<World>, prompt: string, a: ToolCall, b: ToolCall)
    returns (v: World)
    requires Closed(r) && NewSession(prompt) in r && TwoCalls(a, b)
    ensures v in r
    ensures LastCalls(v.sess.llm) == [a, b] && TailResults(v.sess.llm) == [a.id, b.id, a.id] && !Tidy(v.sess.llm)
  {
    ReachRunning(r, prompt, a, b);
    MarkTool(r, Running(prompt, a, b), a);
    var v0 := Registered(Running(prompt, a, b), a);
    Go(r, v0, StopNow);
    var v1 := v0.(ctl := v0.ctl.(stop := true, interrupted := {a.id}), groupCut := true, own := false, late := {a.id});
    assert Apply(v0, StopNow) == v1;
    LoadNow(r, v1);
    RunningLacksBoth(prompt, a, b);
    BothMissing(v1.sess.llm, a, b);
    var v2 := Loaded(v1);
    Go(r, v2, StopReport(a.id));
    v := Apply(v2, StopReport(a.id));
    assert v.sess.llm == v2.sess.llm + [Tool(a.id, STOPPED)];
    AppendTool(v2.sess.llm, a.id, STOPPED);
    TidyTool(v2.sess.llm, a.id, STOPPED);
    assert a.id !in Owed(v2.sess.llm);
  }

  // ---------- A rewind while an answer is at work ----------

  /** The user has rewound to the beginning; the answer goes on, and the queue is still there. */
  function Rewound(v: World, prompt: string): World {
    v.(sess := Session([], [System(prompt)], [], [], v.sess.queue), calm := !InHand(v), own := false)
  }

  lemma {:induction false} RewindsToStart(s: Session, first: Entry, system: Message, said: Message, more: seq<Message>)
    requires s.messages != [] && s.messages[0] == first && first.role.UserRole? && system.System? && said.User?
    requires s.llm == [system, said] + more
    ensures FindUser(s.messages, first.id, 0) == 0
    ensures RewindTo(s, 0) == Session([], [system], [], [], s.queue)
  {
    var n := Ordinal(s.messages, 0);
    assert s.messages[..0] == [];
    var i := NthUser(s.llm, n);
    assert s.llm[..1] == [system] && Front([system]) == [] && MessageTurns([system]) == [];
    assert s.llm[..|s.llm|] == s.llm;
    if i > 1 {
      SaidSomething(s.llm, i);
    }
  }

  lemma {:induction false} SaidSomething(llm: seq<Message>, i: nat)
    requires 1 < i <= |llm| && llm[1].User?
    ensures |MessageTurns(llm[..i])| >= 1
  {
    MessageTurnsSplit(llm[..i], 1);
  }

  /** Back to the first thing the user said, whatever came after it. */
  lemma {:induction false} RewindNow(r: iset<World>, v: World, prompt: string, more: seq<Message>, rows: seq<Entry>)
    requires Closed(r) && v in r && !v.ctl.running && !v.filled
    requires v.sess.messages == [Entry("u", UserRole, "hello", "completed", "", "")] + rows
    requires v.sess.llm == [System(prompt), User("hello")] + more
    ensures Rewound(v, prompt) in r
  {
    var first := Entry("u", UserRole, "hello", "completed", "", "");
    RewindsToStart(v.sess, first, System(prompt), User("hello"), more);
    Go(r, v, Rewind("u"));
    assert Apply(v, Rewind("u")) == Rewound(v, prompt);
  }

  lemma {:induction false} ReachRewound(r: iset<World>, prompt: string, a: ToolCall, b: ToolCall)
    requires Closed(r) && NewSession(prompt) in r && TwoCalls(a, b)
    ensures Rewound(Ran(prompt, a, b), prompt) in r
  {
    ReachRan(r, prompt, a, b);
    var v := Ran(prompt, a, b);
    var more := [Assistant("", [a, b]), Tool(a.id, "ok")];
    assert v.sess.llm == [System(prompt), User("hello")] + more;
    RewindNow(r, v, prompt, more, v.sess.messages[1..]);
  }

  /** The queue of the turn that the rewind removed is taken up and worked through: the
      transcript has no call at all, and the thread goes on with the old turn's second call. */
  lemma {:induction false} StaleQueueIsTaken(prompt: string, a: ToolCall, b: ToolCall) returns (v: World)
    requires TwoCalls(a, b)
    ensures Reaches(NewSession(prompt), v) && v.owner.Taking? && Enabled(v, Take)
    ensures v.sess.llm == [System(prompt)] && AllIds(v.sess.llm) == {} && !Live(v)
    ensures Apply(v, Take).work == Next([b])
  {
    ReachableIsClosed(NewSession(prompt));
    v := TakenAfterRewind(Reachable(NewSession(prompt)), prompt, a, b);
  }

  lemma {:induction false} TakenAfterRewind(r: iset<World>, prompt: string, a: ToolCall, b: ToolCall) returns (v: World)
    requires Closed(r) && NewSession(prompt) in r && TwoCalls(a, b)
    ensures v in r && v.owner.Taking? && Enabled(v, Take)
    ensures v.sess.llm == [System(prompt)] && AllIds(v.sess.llm) == {} && !Live(v)
    ensures Apply(v, Take).work == Next([b])
  {
    ReachRewound(r, prompt, a, b);
    var v0 := Rewound(Ran(prompt, a, b), prompt);
    Go(r, v0, FirstDone);
    v := v0.(owner := Taking(a));
    assert Apply(v0, FirstDone) == v;
    NewSessionRests(prompt);
    GoneIsNotLive(v, HeldBack(v));
  }

  /** The same rewind while the tool still runs: its result lands in a transcript that has no
      call, which nothing takes out again but another rewind. */
  lemma {:induction false} ResultAfterRewind(prompt: string, a: ToolCall, b: ToolCall) returns (v: World)
    requires TwoCalls(a, b)
    ensures Reaches(NewSession(prompt), v)
    ensures v.sess.llm == [System(prompt), Tool(a.id, "ok")] && Fine(v.sess.llm) && !Tidy(v.sess.llm)
  {
    ReachableIsClosed(NewSession(prompt));
    v := ReportsAfterRewind(Reachable(NewSession(prompt)), prompt, a, b);
    NewSessionRests(prompt);
    OrphanResult([System(prompt)], a.id);
    assert [System(prompt)] + [Tool(a.id, "ok")] == [System(prompt), Tool(a.id, "ok")];
  }

  lemma {:induction false} ReportsAfterRewind(r: iset<World>, prompt: string, a: ToolCall, b: ToolCall)
    returns (v: World)
    requires Closed(r) && NewSession(prompt) in r && TwoCalls(a, b)
    ensures v in r && v.sess.llm == [System(prompt)] + [Tool(a.id, "ok")]
  {
    ReachRunning(r, prompt, a, b);
    WinTool(r, Running(prompt, a, b), a);
    var v0 := Running(prompt, a, b).(work := Won(a, []));
    assert v0.sess.llm == [System(prompt), User("hello")] + [Assistant("", [a, b])];
    RewindNow(r, v0, prompt, [Assistant("", [a, b])], v0.sess.messages[1..]);
    var v1 := Rewound(v0, prompt);
    Go(r, v1, Working(Report("ok", "completed")));
    v := Apply(v1, Working(Report("ok", "completed")));
  }

  lemma {:induction false} OrphanResult(llm: seq<Message>, id: string)
    requires Fine(llm) && LastCalls(llm) == []
    ensures Fine(llm + [Tool(id, "ok")]) && !Tidy(llm + [Tool(id, "ok")])
  {
    AppendTool(llm, id, "ok");
    TidyTool(llm, id, "ok");
  }

  // ---------- Two approvals at once ----------

  /** What two threads have come to when both a call of the old turn and one of the new wait. */
  predicate TwoWait(v: World, b: ToolCall, c: ToolCall) {
    v.sess.approvals == [Pending("q", b), Pending("s", c)]
  }

  /** The user speaks right after the rewind.  The old turn's second call then waits for an
      approval, and so does the new turn's first one. */
  lemma {:induction false} TwoApprovalsWait(prompt: string, a: ToolCall, b: ToolCall, c: ToolCall) returns (v: World)
    requires TwoCalls(a, b) && TwoCalls(a, c) && c.id != b.id
    ensures Reaches(NewSession(prompt), v) && TwoWait(v, b, c)
  {
    var r := Reachable(NewSession(prompt));
    ReachableIsClosed(NewSession(prompt));
    ReachRewound(r, prompt, a, b);
    v := SpeakThenPauseTwice(r, Rewound(Ran(prompt, a, b), prompt), prompt, a, b, c);
  }

  /** Nor does it take a rewind: the user speaks while the approved call is at work. */
  lemma {:induction false} TwoApprovalsAfterSend(prompt: string, a: ToolCall, b: ToolCall, c: ToolCall)
    returns (v: World)
    requires TwoCalls(a, b) && TwoCalls(a, c) && c.id != b.id
    ensures Reaches(NewSession(prompt), v) && TwoWait(v, b, c)
  {
    var r := Reachable(NewSession(prompt));
    ReachableIsClosed(NewSession(prompt));
    ReachRan(r, prompt, a, b);
    v := SpeakThenPauseTwice(r, Ran(prompt, a, b), prompt, a, b, c);
  }

  lemma {:induction false} SpeakThenPauseTwice(r: iset<World>, v0: World, prompt: string, a: ToolCall, b: ToolCall,
                                               c: ToolCall)
    returns (v: World)
    requires Closed(r) && v0 in r && TwoCalls(a, b) && TwoCalls(a, c) && c.id != b.id
    requires v0.owner == First(a) && v0.work == Settled(a, []) && v0.sess.queue == [b] && !v0.sess.Waiting()
    requires v0.run.NoRun? && v0.ctl == Flags(false, false, None, {}) && v0.late == {} && v0.used == {a.id, b.id}
    ensures v in r && TwoWait(v, b, c)
  {
    var v1 := SpeakThenPause(r, v0, prompt, a, b);
    assert Ids([c]) == [c.id] && IdSet([c]) == {c.id};
    PauseOn(r, v1, [c], "t", "s");
    v := PausedOn(v1, [c], "t", "s");
  }

  lemma {:induction false} SpeakThenPause(r: iset<World>, v0: World, prompt: string, a: ToolCall, b: ToolCall)
    returns (v: World)
    requires Closed(r) && v0 in r && TwoCalls(a, b)
    requires v0.owner == First(a) && v0.work == Settled(a, []) && v0.sess.queue == [b] && !v0.sess.Waiting()
    requires v0.run.NoRun? && v0.ctl == Flags(false, false, None, {}) && v0.late == {} && v0.used == {a.id, b.id}
    ensures v in r && v.sess.approvals == [Pending("q", b)] && v.sess.questions == []
    ensures v.owner.Nobody? && v.run.Checked?
    ensures v.ctl == Flags(true, false, None, {}) && v.late == {} && v.used == {a.id, b.id}
  {
    Ask(r, v0, "u2", "again", prompt);
    v := OldCallWaits(r, Asked(v0, "u2", "again", prompt), a, b);
  }

  lemma {:induction false} OldCallTaken(r: iset<World>, v: World, a: ToolCall, b: ToolCall)
    requires Closed(r) && v in r && v.owner == First(a) && v.work == Settled(a, []) && v.sess.queue == [b]
    ensures v.(sess := v.sess.(queue := []), owner := Rest, work := Next([b])) in r
  {
    Go(r, v, FirstDone);
    var v1 := v.(owner := Taking(a));
    assert Apply(v, FirstDone) == v1;
    Go(r, v1, Take);
    assert Apply(v1, Take) == v1.(sess := v1.sess.(queue := []), owner := Rest, work := Next([b]));
  }

  lemma {:induction false} OldCallPauses(r: iset<World>, v: World, b: ToolCall) returns (next: World)
    requires Closed(r) && v in r && v.owner.Rest? && v.work == Next([b]) && b.name != QUESTION && !v.sess.Waiting()
    ensures next in r && next.sess.approvals == [Pending("q", b)] && next.owner.Rest? && next.work.Halted?
    ensures next.sess.questions == []
    ensures next.ctl == v.ctl && next.used == v.used && next.late == v.late && next.run == v.run
  {
    Go(r, v, Working(ShowRow("x")));
    var v1 := Apply(v, Working(ShowRow("x")));
    assert v1.work == Prepared(b, []);
    Go(r, v1, Working(NeedApproval("q")));
    next := Apply(v1, Working(NeedApproval("q")));
  }

  lemma {:induction false} OldCallWaits(r: iset<World>, v: World, a: ToolCall, b: ToolCall) returns (next: World)
    requires Closed(r) && v in r && TwoCalls(a, b) && v.owner == First(a) && v.work == Settled(a, [])
    requires v.sess.queue == [b] && !v.sess.Waiting() && v.run.Checked? && v.ctl == Flags(true, false, None, {})
    ensures next in r
    ensures next.sess.questions == []
    ensures next.sess.approvals == [Pending("q", b)] && next.run.Checked? && next.owner.Nobody?
    ensures next.ctl == v.ctl && next.used == v.used && next.late == v.late
  {
    OldCallTaken(r, v, a, b);
    var v1 := OldCallPauses(r, v.(sess := v.sess.(queue := []), owner := Rest, work := Next([b])), b);
    Go(r, v1, RestDone);
    var v2 := v1.(owner := Restarting);
    assert Apply(v1, RestDone) == v2;
    Go(r, v2, Restart);
    next := v2.(owner := Nobody);
    assert Apply(v2, Restart) == next;
  }

  // ---------- A turn whose calls are answered out of order ----------

  /** The new turn has two calls and has paused on the first one, its run loop gone, while the
      old turn's call still waits. */
  function BothWait(v: World, calls: seq<ToolCall>): World
    requires calls != []
  {
    PausedOn(v, calls, "t", "s").(ctl := Flags(false, false, None, {}), run := Runs.NoRun, owner := Nobody)
  }

  lemma {:induction false} ReachBothWait(r: iset<World>, v: World, calls: seq<ToolCall>)
    requires Closed(r) && v in r && v.run.Checked? && v.owner.Nobody? && v.ctl == Flags(true, false, None, {})
    requires calls != [] && calls[0].name != QUESTION && FreshCalls(v, calls) && v.used !! IdSet(calls)
    ensures BothWait(v, calls) in r
  {
    PauseOn(r, v, calls, "t", "s");
    var v1 := PausedOn(v, calls, "t", "s");
    Go(r, v1, WorkHalted);
    var v2 := v1.(run := Runs.Leaving, owner := Nobody);
    assert Apply(v1, WorkHalted) == v2;
    Go(r, v2, Exit);
    assert Apply(v2, Exit) == BothWait(v, calls);
  }

  /** The user approves the old call, which runs. */
  function OldCallRan(v: World, b: ToolCall): World
    requires v.sess.approvals != []
  {
    v.(sess := AnswerCall(v.sess.(approvals := Without(v.sess.approvals, 0)), b.id, "ok", "completed"),
       owner := First(b), work := Settled(b, []))
  }

  lemma {:induction false} RunOldCall(r: iset<World>, v: World, b: ToolCall)
    requires Closed(r) && v in r && v.owner.Nobody? && v.ctl == Flags(false, false, None, {}) && b.name != TASKS
    requires v.sess.approvals != [] && v.sess.approvals[0].call == b
    requires b.id !in IdSet(LastCalls(v.sess.llm))
    ensures OldCallRan(v, b) in r
  {
    Go(r, v, Approve(0));
    var v1 := v.(sess := v.sess.(approvals := Without(v.sess.approvals, 0)), owner := First(b),
                 work := Turns.Work.Allowed(b, []));
    assert Apply(v, Approve(0)) == v1;
    Go(r, v1, Working(Enter));
    var v2 := v1.(work := Entered(b, []));
    assert Apply(v1, Working(Enter)) == v2;
    RunTool(r, v2, b);
  }

  /** The answering thread takes a queue of one call, answers that one too, and is done. */
  function QueueRan(v: World, d: ToolCall): World {
    v.(sess := AnswerCall(AddEntry(v.sess.(queue := []), Entry("y", ToolRole, "", "pending", d.id, "")),
                          d.id, "ok", "completed"),
       owner := Restarting, work := Drained)
  }

  lemma {:induction false} RunQueue(r: iset<World>, v: World, b: ToolCall, d: ToolCall)
    requires Closed(r) && v in r && v.owner == First(b) && v.work == Settled(b, []) && v.sess.queue == [d]
    requires v.ctl == Flags(false, false, None, {}) && d.name != TASKS && d.name != QUESTION
    ensures QueueRan(v, d) in r
  {
    OldCallTaken(r, v, b, d);
    var v1 := v.(sess := v.sess.(queue := []), owner := Rest, work := Next([d]));
    EnterNext(r, v1, d, "y");
    var v2 := v1.(sess := AddEntry(v1.sess, Entry("y", ToolRole, "", "pending", d.id, "")), work := Entered(d, []));
    RunTool(r, v2, d);
    LeaveQueue(r, v2.(sess := AnswerCall(v2.sess, d.id, "ok", "completed"), work := Settled(d, [])), d);
  }

  lemma {:induction false} EnterNext(r: iset<World>, v: World, d: ToolCall, row: string)
    requires Closed(r) && v in r && v.owner.Rest? && v.work == Next([d]) && !v.ctl.stop
    requires d.name != TASKS && d.name != QUESTION
    ensures v.(sess := AddEntry(v.sess, Entry(row, ToolRole, "", "pending", d.id, "")), work := Entered(d, [])) in r
  {
    Go(r, v, Working(ShowRow(row)));
    var v1 := v.(sess := AddEntry(v.sess, Entry(row, ToolRole, "", "pending", d.id, "")), work := Prepared(d, []));
    assert [d][1..] == [];
    assert Apply(v, Working(ShowRow(row))) == v1;
    Go(r, v1, Working(Permit));
    var v2 := v1.(work := Turns.Work.Allowed(d, []));
    assert Apply(v1, Working(Permit)) == v2;
    Go(r, v2, Working(Enter));
    assert Apply(v2, Working(Enter)) == v2.(work := Entered(d, []));
  }

  lemma {:induction false} LeaveQueue(r: iset<World>, v: World, d: ToolCall)
    requires Closed(r) && v in r && v.owner.Rest? && v.work == Settled(d, []) && !v.ctl.stop && v.sess.queue == []
    ensures v.(owner := Restarting, work := Drained) in r
  {
    Go(r, v, Working(Look));
    var v1 := v.(work := Next([]));
    assert Apply(v, Working(Look)) == v1;
    Go(r, v1, Working(Finish));
    var v2 := v1.(work := Drained);
    assert Apply(v1, Working(Finish)) == v2;
    Go(r, v2, RestDone);
    assert Apply(v2, RestDone) == v2.(owner := Restarting);
  }

  /** A turn that nobody stops, forces, rewinds or speaks over, but whose reply landed while the
      old turn's call waited: its second call is answered while the first one waits, and the
      answering thread ends with that.  The turn's results are [d], what remains is [c]. */
  lemma {:induction false} SecondCallFirst(prompt: string, a: ToolCall, b: ToolCall, c: ToolCall, d: ToolCall)
    returns (v: World)
    requires TwoCalls(a, b) && TwoCalls(c, d) && {a.id, b.id} !! {c.id, d.id}
    ensures Reaches(NewSession(prompt), v) && v.own && !v.filled && !v.calm
    ensures LastCalls(v.sess.llm) == [c, d] && Results(v.sess.llm) == [d.id] && Remaining(v) == [c]
    ensures v.sess.approvals == [Pending("s", c)] && v.owner.Restarting? && !Split(v)
  {
    var r := Reachable(NewSession(prompt));
    ReachableIsClosed(NewSession(prompt));
    ReachRan(r, prompt, a, b);
    var v0 := SpeakThenPause(r, Ran(prompt, a, b), prompt, a, b);
    v := RepliesOverOldCall(r, v0, b, c, d);
    OutOfOrder(v, c, d);
  }

  lemma {:induction false} RepliesOverOldCall(r: iset<World>, v: World, b: ToolCall, c: ToolCall, d: ToolCall)
    returns (next: World)
    requires Closed(r) && v in r && v.run.Checked? && v.owner.Nobody? && v.ctl == Flags(true, false, None, {})
    requires v.sess.approvals == [Pending("q", b)] && v.sess.questions == [] && v.late == {}
    requires TwoCalls(c, d) && b.name != TASKS && b.id !in {c.id, d.id} && v.used !! {c.id, d.id}
    ensures next in r && next.own && !next.filled && !next.calm && next.owner.Restarting?
    ensures LastCalls(next.sess.llm) == [c, d] && TailResults(next.sess.llm) == [b.id, d.id]
    ensures next.sess.approvals == [Pending("s", c)] && next.sess.questions == [] && next.sess.queue == []
  {
    assert Ids([c, d]) == [c.id, d.id] && IdSet([c, d]) == {c.id, d.id};
    ReachBothWait(r, v, [c, d]);
    AppendSpeaker(v.sess.llm, Assistant("", [c, d]));
    next := AnswersSecondFirst(r, BothWait(v, [c, d]), b, c, d);
  }

  lemma {:induction false} AnswersSecondFirst(r: iset<World>, v: World, b: ToolCall, c: ToolCall, d: ToolCall)
    returns (next: World)
    requires Closed(r) && v in r && v.owner.Nobody? && v.ctl == Flags(false, false, None, {})
    requires v.own && !v.filled && !v.calm && TwoCalls(c, d) && b.name != TASKS && b.id !in {c.id, d.id}
    requires v.sess.approvals == [Pending("q", b), Pending("s", c)] && v.sess.queue == [d] && v.sess.questions == []
    requires LastCalls(v.sess.llm) == [c, d] && TailResults(v.sess.llm) == []
    ensures next in r && next.own && !next.filled && !next.calm && next.owner.Restarting?
    ensures LastCalls(next.sess.llm) == [c, d] && TailResults(next.sess.llm) == [b.id, d.id]
    ensures next.sess.approvals == [Pending("s", c)] && next.sess.questions == [] && next.sess.queue == []
  {
    assert IdSet([c, d]) == {c.id, d.id} by { assert Ids([c, d]) == [c.id, d.id]; }
    RunOldCall(r, v, b);
    var v1 := OldCallRan(v, b);
    RunQueue(r, v1, b, d);
    next := QueueRan(v1, d);
    AppendTool(v.sess.llm, b.id, "ok");
    AppendTool(v1.sess.llm, d.id, "ok");
  }

  lemma {:induction false} OnlySecond(other: string, id: string, mine: set<string>)
    requires other !in mine && id in mine
    ensures Only([other, id], mine) == [id]
  {
    assert Front([other, id]) == [other] && Front([other]) == [];
    assert Only([other], mine) == [];
  }

  lemma {:induction false} OutOfOrder(v: World, c: ToolCall, d: ToolCall)
    requires LastCalls(v.sess.llm) == [c, d] && |TailResults(v.sess.llm)| == 2 && c.id != d.id
    requires TailResults(v.sess.llm)[0] !in {c.id, d.id} && TailResults(v.sess.llm)[1] == d.id
    requires v.sess.approvals == [Pending("s", c)] && v.sess.questions == [] && v.sess.queue == []
    requires v.owner.Restarting?
    ensures Results(v.sess.llm) == [d.id] && Remaining(v) == [c] && !Split(v)
  {
    var results := TailResults(v.sess.llm);
    assert Ids([c, d]) == [c.id, d.id] && IdSet([c, d]) == {c.id, d.id};
    assert results == [results[0], d.id];
    OnlySecond(results[0], d.id, IdSet([c, d]));
    assert WaitingCalls(v.sess) == [c] && [c] + [] == [c];
    assert Last([c, d]) == d;
    forall done ensures [c, d] != done + [c] {
      assert Last(done + [c]) == c;
    }
  }
}
