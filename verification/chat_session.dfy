/** The lock-held sections of one session, as the manager runs them: fields updated in
    place, rows searched from either end.  Each method is tied to the function of Sessions,
    Transcript or Controls that the step systems are built from. */
module ChatSessions {
  import opened Common
  import opened Text
  import opened Transcript
  import opened Sessions
  import opened Controls
  import opened StopRace

  datatype Outcome = Sent | Blank | Busy | NotFound | Resumed

  /** One more call of a turn: another result to make up, unless it is answered. */
  lemma {:induction false} BackfillNext(llm: seq<Message>, calls: seq<ToolCall>, k: nat, answered: seq<string>)
    requires k < |calls|
    ensures var before, after := Unanswered(calls[..k], answered), Unanswered(calls[..k + 1], answered);
            if calls[k].id == "" || calls[k].id !in answered
            then after != [] && llm + Backfill(after) == llm + Backfill(before) + [Tool(calls[k].id, BACKFILL)]
            else after == before
  {
    assert calls[..k + 1] == calls[..k] + [calls[k]];
    UnansweredConcat(calls[..k], [calls[k]], answered);
  }

  class ChatSession {
    var messages: seq<Entry>
    var llm: seq<Message>
    var approvals: seq<Pending>
    var questions: seq<Pending>
    var queue: seq<ToolCall>
    var running: bool
    var stopRequested: bool
    var runningTool: Option<ToolCall>
    var interrupted: set<string>

    /** The session's own record. */
    function View(): Session
      reads this
    {
      Session(messages, llm, approvals, questions, queue)
    }

    /** The manager's flags for the session. */
    function RunFlags(): Flags
      reads this
    {
      Flags(running, stopRequested, runningTool, interrupted)
    }

    constructor (prompt: string)
      ensures View() == Session([], [System(prompt)], [], [], [])
      ensures RunFlags() == Flags(false, false, None, {})
    {
      messages, llm, approvals, questions, queue := [], [System(prompt)], [], [], [];
      running, stopRequested, runningTool, interrupted := false, false, None, {};
    }

    // ---------- User turns ----------

    method Send(id: string, content: string, prompt: string) returns (r: Outcome)
      modifies this`messages, this`llm
      ensures r == (if IsBlank(content) then Blank else if running then Busy else Sent)
      ensures View() == (if r == Sent then SendUser(old(View()), id, content, prompt) else old(View()))
    {
      if IsBlank(content) { return Blank; }
      if running { return Busy; }
      messages := messages + [Entry(id, UserRole, content, "completed", "", "")];
      llm := SetSystem(llm, prompt);
      llm := llm + [User(content)];
      return Sent;
    }

    method AddForcedCreateTasksCall(id: string, content: string, prompt: string, tc: ToolCall)
      modifies this`messages, this`llm
      ensures View() == ForceCall(old(View()), id, content, prompt, tc)
      ensures Owed(llm) == {tc.id} && (Fine(llm) <==> Complete(old(llm)))
      ensures EntryTurns(messages) == EntryTurns(old(messages)) + [content]
      ensures MessageTurns(llm) == MessageTurns(old(llm)) + [content]
    {
      ForceKeepsRuleIff(View(), id, content, prompt, tc);
      EntryAppend(messages, Entry(id, UserRole, content, "completed", "", ""));
      messages := messages + [Entry(id, UserRole, content, "completed", "", "")];
      llm := SetSystem(llm, prompt);
      llm := llm + [User(content)];
      llm := llm + [Assistant("", [tc])];
    }

    /** RewindAndResend's section: finds the user row, then the user turn with the same
        ordinal in the provider's transcript, and cuts both there.  `resend` is what the
        caller sends next. */
    method RewindCut(messageId: string, newContent: string) returns (r: Outcome, resend: string)
      modifies this`messages, this`llm, this`approvals, this`questions
      ensures var i := FindUser(old(messages), messageId, 0);
              if running then r == Busy && View() == old(View())
              else if i == |old(messages)| then r == NotFound && View() == old(View())
              else
                && r == Sent && View() == RewindTo(old(View()), i)
                && resend == (if IsBlank(newContent) then old(messages)[i].content else Strip(newContent, IsSpace))
    {
      if running { return Busy, ""; }
      var i, ordinal := FindUserRow(messages, messageId);
      if i == |messages| { return NotFound, ""; }
      resend := Strip(newContent, IsSpace);
      if resend == "" {
        resend := messages[i].content;
      }
      var cut := FindUserTurn(llm, ordinal);
      messages, llm := messages[..i], llm[..cut];
      approvals, questions := [], [];
      return Sent, resend;
    }

    // ---------- Answers ----------

    /** ResolveApproval's first section: takes the approval out, if it is there. */
    method TakeApproval(id: string) returns (r: Option<Pending>)
      modifies this`approvals
      ensures r.None? ==> approvals == old(approvals) && forall p | p in approvals :: p.id != id
      ensures r.Some? ==> exists i :: WaitsAt(old(approvals), id, i) && r.value == old(approvals)[i]
                            && approvals == old(approvals)[..i] + old(approvals)[i + 1..]
    {
      for i := 0 to |approvals|
        invariant approvals == old(approvals)
        invariant forall j | 0 <= j < i :: approvals[j].id != id
      {
        if approvals[i].id == id {
          assert WaitsAt(approvals, id, i);
          r := Some(approvals[i]);
          approvals := approvals[..i] + approvals[i + 1..];
          return;
        }
      }
      r := None;
    }

    /** Fills in the newest row of the call, searching from the end, and answers the call in
        the provider's transcript. */
    method AppendToolResult(callId: string, result: string, status: string)
      modifies this`messages, this`llm
      ensures View() == AnswerCall(old(View()), callId, result, status)
    {
      llm := llm + [Tool(callId, result)];
      var i := |messages|;
      assert messages[..i] == messages;
      while i > 0
        invariant 0 <= i <= |messages| && messages == old(messages)
        invariant Fill(messages, callId, result, status) == Fill(messages[..i], callId, result, status) + messages[i..]
      {
        i := i - 1;
        assert Front(messages[..i + 1]) == messages[..i] && messages[i..] == [messages[i]] + messages[i + 1..];
        if messages[i].toolCallId == callId {
          messages := messages[i := messages[i].(output := result, status := status)];
          return;
        }
      }
    }

    method SetPendingToolCalls(calls: seq<ToolCall>)
      modifies this`queue
      ensures View() == old(View()).(queue := calls)
    {
      queue := if |calls| == 0 then [] else calls;
    }

    method TakePendingToolCalls() returns (calls: seq<ToolCall>)
      modifies this`queue
      ensures calls == old(queue) && View() == old(View()).(queue := [])
    {
      calls := queue;
      if |calls| > 0 {
        queue := [];
      }
    }

    /** The provider's backstop: answers what the last turn with tool calls still owes,
        unless the conversation has moved past that turn. */
    method EnsureToolResultsComplete() returns (changed: bool)
      modifies this`llm
      ensures View() == old(View()).(llm := EnsureComplete(old(llm)))
      ensures changed <==> Missing(old(llm)) != []
    {
      var last := |llm| - 1;
      while last >= 0 && !(llm[last].Assistant? && |llm[last].calls| > 0)
        invariant -1 <= last < |llm|
        invariant forall k | last < k < |llm| :: !(llm[k].Assistant? && |llm[k].calls| > 0)
      {
        last := last - 1;
      }
      if last < 0 {
        NoCalls(llm);
        return false;
      }
      var answered: seq<string> := [];
      var i := last + 1;
      TurnStarts(llm, last);
      while i < |llm|
        invariant last < i <= |llm| && llm == old(llm)
        invariant answered == TailResults(llm[..i]) && LastCalls(llm[..i]) == llm[last].calls
      {
        TurnGoesOn(llm, i);
        if llm[i].Tool? {
          answered := answered + [llm[i].id];
        } else if llm[i].Speaks() {
          MovedOn(llm, i);
          return false;
        }
        i := i + 1;
      }
      assert llm[..|llm|] == llm;
      changed := false;
      var calls := llm[last].calls;
      ghost var start := llm;
      for k := 0 to |calls|
        invariant llm == start + Backfill(Unanswered(calls[..k], answered))
        invariant changed <==> Unanswered(calls[..k], answered) != []
      {
        BackfillNext(start, calls, k, answered);
        if calls[k].id == "" || calls[k].id !in answered {
          llm := llm + [Tool(calls[k].id, BACKFILL)];
          changed := true;
        }
      }
      assert calls[..|calls|] == calls;
    }

    // ---------- Flags ----------

    method StartRun() returns (started: bool)
      modifies this`running, this`stopRequested
      ensures started == !old(running)
      ensures RunFlags() == (if started then StartSection(old(RunFlags())) else old(RunFlags()))
    {
      if running { return false; }
      stopRequested := false;
      running := true;
      return true;
    }

    method UnwindRun()
      modifies this`running, this`stopRequested, this`runningTool
      ensures RunFlags() == UnwindSection(old(RunFlags()))
    {
      running, stopRequested, runningTool := false, false, None;
    }

    /** StopSession's section; a claimed call is the caller's to report. */
    method StopSession() returns (claimed: Option<ToolCall>)
      modifies this`stopRequested, this`interrupted
      ensures (RunFlags(), claimed) == StopSection(old(RunFlags()))
    {
      claimed := None;
      stopRequested := true;
      if runningTool.Some? {
        var tc := runningTool.value;
        if tc.name != TASKS && tc.id !in interrupted {
          interrupted := interrupted + {tc.id};
          claimed := Some(tc);
        }
      }
    }

    method MarkRunningTool(tc: ToolCall) returns (ok: bool)
      modifies this`runningTool
      ensures (RunFlags(), ok) == MarkSection(old(RunFlags()), tc)
    {
      if stopRequested { return false; }
      runningTool := Some(tc);
      return true;
    }

    method ClearRunningTool(callId: string) returns (lost: bool)
      modifies this`runningTool, this`interrupted
      ensures (RunFlags(), lost) == ClearSection(old(RunFlags()), callId)
    {
      if runningTool.Some? && runningTool.value.id == callId {
        runningTool := None;
      }
      var wasInterrupted := callId in interrupted;
      if wasInterrupted {
        interrupted := interrupted - {callId};
      } else {
        assert interrupted - {callId} == interrupted;
      }
      return wasInterrupted || stopRequested;
    }

    // ---------- A turn's calls, undisturbed ----------

    /** prepareOrExecuteTool with no other thread in between: shows the call's row, and either
        answers the call or makes it wait for the user. */
    method PrepareOrExecute(tc: ToolCall, h: Handling) returns (paused: bool)
      modifies this`messages, this`llm, this`approvals, this`questions
      ensures paused <==> !h.Answers?
      ensures llm == old(llm) + (if h.Answers? then [Tool(tc.id, h.text)] else [])
      ensures approvals == old(approvals) + (if h.NeedsApproval? then [Pending(h.id, tc)] else [])
      ensures questions == old(questions) + (if h.AsksUser? then [Pending(h.id, tc)] else [])
      ensures messages == old(messages) + [RowOf(tc, h)]
      ensures EntryTurns(messages) == EntryTurns(old(messages))
    {
      ghost var before := messages;
      messages := messages + [Entry(tc.id, ToolRole, "", "pending", tc.id, "")];
      match h {
        case Answers(text, status) =>
          AppendToolResult(tc.id, text, status);
          FillsTheRow(before, tc, text, status);
          paused := false;
        case NeedsApproval(id) =>
          approvals := approvals + [Pending(id, tc)];
          paused := true;
        case AsksUser(id) =>
          questions := questions + [Pending(id, tc)];
          paused := true;
      }
      EntryAppend(before, RowOf(tc, h));
    }

    /** processToolCalls with no other thread in between.  `plan` is what permissions, the
        tools and the user's settings make of each call. */
    method ProcessToolCalls(calls: seq<ToolCall>, plan: seq<Handling>) returns (paused: bool)
      requires |plan| == |calls| && !stopRequested
      modifies this`messages, this`llm, this`approvals, this`questions, this`queue
      ensures var n := FirstPause(plan);
              && (paused <==> n < |calls|)
              && llm == old(llm) + ResultsOf(calls[..n], plan[..n])
              && queue == (if paused then calls[n + 1..] else [])
              && approvals == old(approvals)
                   + (if paused && plan[n].NeedsApproval? then [Pending(plan[n].id, calls[n])] else [])
              && questions == old(questions)
                   + (if paused && plan[n].AsksUser? then [Pending(plan[n].id, calls[n])] else [])
              && messages == old(messages) + RowsOf(calls, plan, if paused then n + 1 else n)
      ensures EntryTurns(messages) == EntryTurns(old(messages))
    {
      for i := 0 to |calls|
        invariant i <= FirstPause(plan) && !stopRequested
        invariant llm == old(llm) + ResultsOf(calls[..i], plan[..i])
        invariant approvals == old(approvals) && questions == old(questions)
        invariant messages == old(messages) + RowsOf(calls, plan, i)
        invariant EntryTurns(messages) == EntryTurns(old(messages))
      {
        NextRow(old(messages), calls, plan, i);
        paused := PrepareOrExecute(calls[i], plan[i]);
        if paused {
          assert FirstPause(plan) == i;
          SetPendingToolCalls(calls[i + 1..]);
          return;
        }
        NextResult(calls, plan, i);
      }
      assert calls[..|calls|] == calls && plan[..|calls|] == plan;
      SetPendingToolCalls([]);
      return false;
    }

    /** ResolveApproval with no other thread in between: answers the call that waited, then
        goes on with the calls queued behind it.  `ran` is what an approved call brings. */
    method ResolveApproval(id: string, approved: bool, ran: string, status: string, plan: seq<Handling>)
      returns (r: Outcome)
      requires |plan| == |queue| && !stopRequested
      modifies this`messages, this`llm, this`approvals, this`questions, this`queue
      ensures r == NotFound <==> forall p | p in old(approvals) :: p.id != id
      ensures r == NotFound ==> View() == old(View())
      ensures r != NotFound ==>
                exists i :: WaitsAt(old(approvals), id, i)
                  && WentOn(old(View()), View(), i, if approved then ran else DECLINED,
                            if approved then status else "declined", plan)
      ensures EntryTurns(messages) == EntryTurns(old(messages))
    {
      var pending := TakeApproval(id);
      if pending.None? { return NotFound; }
      ghost var i :| WaitsAt(old(approvals), id, i) && pending.value == old(approvals)[i]
                     && approvals == old(approvals)[..i] + old(approvals)[i + 1..];
      if approved {
        FillKeepsTurns(messages, pending.value.call.id, ran, status);
        AppendToolResult(pending.value.call.id, ran, status);
      } else {
        FillKeepsTurns(messages, pending.value.call.id, DECLINED, "declined");
        AppendToolResult(pending.value.call.id, DECLINED, "declined");
      }
      var calls := TakePendingToolCalls();
      var _ := ProcessToolCalls(calls, plan);
      assert WentOn(old(View()), View(), i, if approved then ran else DECLINED,
                    if approved then status else "declined", plan);
      return Resumed;
    }

    // ---------- A running tool among other threads ----------

    /** Close's reach into this session, when a run loop owns it. */
    method Shutdown()
      modifies this`stopRequested
      ensures RunFlags() == CloseSection(old(RunFlags()))
    {
      stopRequested := true;
    }

    /** What another thread does meanwhile; says whether it was handed the call to report. */
    method Meanwhile(e: Other, tc: ToolCall) returns (claimed: bool)
      requires e.Start? ==> !running
      modifies this`running, this`stopRequested, this`runningTool, this`interrupted
      ensures RunFlags() == Do(old(RunFlags()), e)
      ensures claimed <==> e.Stop? && StopSection(old(RunFlags())).1 == Some(tc)
    {
      claimed := false;
      match e {
        case Stop =>
          var call := StopSession();
          claimed := call == Some(tc);
        case Start => var _ := StartRun();
        case Unwind => UnwindRun();
        case Shut => Shutdown();
      }
    }

    /** executeToolCall from the mark to the clear, while other threads stop, start and leave the
        session: how many threads get to append the call's result. */
    method RunTool(tc: ToolCall, meanwhile: seq<Other>) returns (owners: nat)
      requires Ready(RunFlags(), tc) && OnlyIdleStarts(MarkSection(RunFlags(), tc).0, meanwhile)
      modifies this`running, this`stopRequested, this`runningTool, this`interrupted
      ensures owners <= 1
      ensures owners == 0 <==> NoEarlyStop(meanwhile) && StopInForce(meanwhile)
      ensures tc.id !in interrupted && (runningTool.Some? ==> runningTool.value.id != tc.id)
    {
      ghost var before := RunFlags();
      var ok := MarkRunningTool(tc);
      ghost var marked := RunFlags();
      owners := 0;
      for i := 0 to |meanwhile|
        invariant RunFlags() == After(marked, meanwhile[..i])
        invariant owners == StopClaims(marked, meanwhile[..i], tc)
      {
        assert Front(meanwhile[..i + 1]) == meanwhile[..i];
        var claimed := Meanwhile(meanwhile[i], tc);
        owners := owners + if claimed then 1 else 0;
      }
      assert meanwhile[..|meanwhile|] == meanwhile;
      var lost := ClearRunningTool(tc.id);
      owners := owners + if lost then 0 else 1;
      OneOwner(before, meanwhile, tc);
    }
  }

  /** The first approval with this id. */
  predicate WaitsAt(approvals: seq<Pending>, id: string, i: int) {
    0 <= i < |approvals| && approvals[i].id == id && forall j | 0 <= j < i :: approvals[j].id != id
  }

  /** The row a call leaves: filled in when it was answered, pending while it waits. */
  function RowOf(tc: ToolCall, h: Handling): Entry {
    if h.Answers? then Entry(tc.id, ToolRole, "", h.status, tc.id, h.text)
    else Entry(tc.id, ToolRole, "", "pending", tc.id, "")
  }

  function RowsOf(calls: seq<ToolCall>, plan: seq<Handling>, n: nat): seq<Entry>
    requires n <= |calls| && n <= |plan|
  {
    seq(n, i requires 0 <= i < n => RowOf(calls[i], plan[i]))
  }

  lemma {:induction false} NextRow(messages: seq<Entry>, calls: seq<ToolCall>, plan: seq<Handling>, n: nat)
    requires n < |calls| && n < |plan|
    ensures messages + RowsOf(calls, plan, n + 1) == messages + RowsOf(calls, plan, n) + [RowOf(calls[n], plan[n])]
  {
    assert RowsOf(calls, plan, n + 1) == RowsOf(calls, plan, n) + [RowOf(calls[n], plan[n])];
  }

  lemma {:induction false} NextResult(calls: seq<ToolCall>, plan: seq<Handling>, n: nat)
    requires n < |calls| && n < |plan| && n < FirstPause(plan)
    ensures ResultsOf(calls[..n + 1], plan[..n + 1])
         == ResultsOf(calls[..n], plan[..n]) + [Tool(calls[n].id, plan[n].text)]
  {
  }

  lemma {:induction false} FillsTheRow(messages: seq<Entry>, tc: ToolCall, text: string, status: string)
    ensures Fill(messages + [Entry(tc.id, ToolRole, "", "pending", tc.id, "")], tc.id, text, status)
         == messages + [RowOf(tc, Answers(text, status))]
  {
    assert Front(messages + [Entry(tc.id, ToolRole, "", "pending", tc.id, "")]) == messages;
  }

  /** The approval at `i` is gone and its call answered; so are the queued calls before the next
      pause, in order; that one waits and the rest is queued. */
  predicate WentOn(s: Session, t: Session, i: nat, result: string, status: string, plan: seq<Handling>)
    requires i < |s.approvals| && |plan| == |s.queue|
  {
    var n := FirstPause(plan);
    var paused := n < |plan|;
    && t.llm == s.llm + [Tool(s.approvals[i].call.id, result)] + ResultsOf(s.queue[..n], plan[..n])
    && t.messages == Fill(s.messages, s.approvals[i].call.id, result, status)
                     + RowsOf(s.queue, plan, if paused then n + 1 else n)
    && t.queue == (if paused then s.queue[n + 1..] else [])
    && t.approvals == s.approvals[..i] + s.approvals[i + 1..]
                      + (if paused && plan[n].NeedsApproval? then [Pending(plan[n].id, s.queue[n])] else [])
    && t.questions == s.questions + if paused && plan[n].AsksUser? then [Pending(plan[n].id, s.queue[n])] else []
  }

  /** Only an idle session is started. */
  predicate OnlyIdleStarts(c: Flags, es: seq<Other>) {
    forall i | 0 <= i < |es| && es[i].Start? :: !After(c, es[..i]).running
  }

  /** What becomes of one tool call. */
  datatype Handling =
    | Answers(text: string, status: string)
    | NeedsApproval(id: string)
    | AsksUser(id: string)

  function FirstPause(plan: seq<Handling>): (n: nat)
    ensures n <= |plan|
    ensures forall k | 0 <= k < n :: plan[k].Answers?
    ensures n < |plan| ==> !plan[n].Answers?
  {
    if plan == [] || !plan[0].Answers? then 0 else 1 + FirstPause(plan[1..])
  }

  function ResultsOf(calls: seq<ToolCall>, plan: seq<Handling>): seq<Message>
    requires |calls| == |plan| && forall h | h in plan :: h.Answers?
  {
    seq(|calls|, i requires 0 <= i < |calls| => assert plan[i] in plan; Tool(calls[i].id, plan[i].text))
  }

  /** The first user row with this id and its ordinal among the user rows. */
  method FindUserRow(messages: seq<Entry>, messageId: string) returns (i: nat, ordinal: nat)
    ensures i == FindUser(messages, messageId, 0)
    ensures i < |messages| ==> ordinal == Ordinal(messages, i)
  {
    i, ordinal := 0, 0;
    while i < |messages|
      invariant 0 <= i <= |messages|
      invariant ordinal == |EntryTurns(messages[..i])|
      invariant FindUser(messages, messageId, 0) == FindUser(messages, messageId, i)
    {
      if messages[i].role.UserRole? {
        ordinal := ordinal + 1;
        if messages[i].id == messageId { return; }
      }
      EntryAppend(messages[..i], messages[i]);
      assert messages[..i + 1] == messages[..i] + [messages[i]];
      i := i + 1;
    }
  }

  /** Where the user turn with this ordinal is. */
  method FindUserTurn(llm: seq<Message>, ordinal: nat) returns (cut: nat)
    requires ordinal >= 1
    ensures cut == NthUser(llm, ordinal)
  {
    cut := |llm|;
    var seen, j := 0, 0;
    while j < |llm|
      invariant 0 <= j <= |llm| && cut == |llm|
      invariant seen == |MessageTurns(llm[..j])| && seen < ordinal
      invariant NthUser(llm[..j], ordinal) == j
    {
      assert Front(llm[..j + 1]) == llm[..j];
      if llm[j].User? {
        seen := seen + 1;
        if seen == ordinal {
          NthUserExtends(llm, j + 1, ordinal);
          cut := j;
          return;
        }
      }
      j := j + 1;
    }
    assert llm[..|llm|] == llm;
  }

  lemma {:induction false} NthUserExtends(llm: seq<Message>, j: nat, n: nat)
    requires n >= 1 && j <= |llm| && NthUser(llm[..j], n) < j
    ensures NthUser(llm, n) == NthUser(llm[..j], n)
  {
    if j < |llm| {
      assert Front(llm)[..j] == llm[..j];
      NthUserExtends(Front(llm), j, n);
    } else {
      assert llm[..j] == llm;
    }
  }

  /** A turn's calls, with no results yet. */
  lemma {:induction false} TurnStarts(llm: seq<Message>, i: nat)
    requires i < |llm| && llm[i].Assistant?
    ensures TailResults(llm[..i + 1]) == [] && LastCalls(llm[..i + 1]) == llm[i].calls
  {
    assert Last(llm[..i + 1]) == llm[i];
  }

  /** One message further: a tool message is a result, and only a speaker ends the turn. */
  lemma {:induction false} TurnGoesOn(llm: seq<Message>, i: nat)
    requires i < |llm|
    ensures !llm[i].Speaks() ==> LastCalls(llm[..i + 1]) == LastCalls(llm[..i])
    ensures !llm[i].Speaks() ==>
              TailResults(llm[..i + 1]) == TailResults(llm[..i]) + if llm[i].Tool? then [llm[i].id] else []
  {
    assert Front(llm[..i + 1]) == llm[..i] && Last(llm[..i + 1]) == llm[i];
  }

  /** With no tool calls anywhere there is nothing to answer. */
  lemma {:induction false} NoCalls(llm: seq<Message>)
    requires forall k | 0 <= k < |llm| :: !(llm[k].Assistant? && |llm[k].calls| > 0)
    ensures LastCalls(llm) == [] && Missing(llm) == [] && EnsureComplete(llm) == llm
  {
    if llm != [] {
      NoCalls(Front(llm));
    }
    assert llm + Backfill([]) == llm;
  }

  /** Past the last message that carries tool calls, a user or assistant message leaves
      nothing to answer. */
  lemma {:induction false} MovedOn(llm: seq<Message>, i: nat)
    requires i < |llm| && llm[i].Speaks()
    requires forall k | i <= k < |llm| :: !(llm[k].Assistant? && |llm[k].calls| > 0)
    ensures LastCalls(llm) == [] && Missing(llm) == [] && EnsureComplete(llm) == llm
  {
    if i < |llm| - 1 && !Last(llm).Speaks() {
      MovedOn(Front(llm), i);
    }
    assert llm + Backfill([]) == llm;
  }
}
