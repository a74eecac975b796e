/** A task group's record and the run of one of its tasks by a worker: the sub-agent's own
    conversation with the provider, its tool calls, and the ways it can end. */
module AgentTasks {
  import opened Common
  import opened Text
  import opened Transcript

  datatype Status = Pending | Running | Completed | Failed

  datatype AgentTask = AgentTask(id: string, prompt: string, status: Status, result: string, llm: seq<Message>)

  datatype Reply = CallFails | Says(content: string, calls: seq<ToolCall>)

  /** What a task's run meets: whether its agent, tools, session and provider can be set up,
      what the provider and the tools answer, and the context check that first sees a
      cancellation. */
  datatype World = World(ready: bool, system: string, reply: nat -> Reply, tool: ToolCall -> string, cancelAt: nat)

  const MAX_ITERATIONS := 40

  predicate Unfinished(t: AgentTask) {
    t.status == Pending || t.status == Running
  }

  function PendingIds(tasks: seq<AgentTask>): seq<string> {
    if tasks == [] then []
    else PendingIds(Front(tasks)) + (if Unfinished(Last(tasks)) then [Last(tasks).id] else [])
  }

  /** A task's id is in the list of pending ids exactly when the task still has to run. */
  lemma {:induction false} PendingIdsAreUnfinished(tasks: seq<AgentTask>, id: string)
    ensures id in PendingIds(tasks) <==> exists t :: t in tasks && Unfinished(t) && t.id == id
  {
    if tasks != [] {
      PendingIdsAreUnfinished(Front(tasks), id);
      assert tasks == Front(tasks) + [Last(tasks)];
    }
  }

  /** Every request is as complete as the transcript the task started from. */
  ghost predicate AllAsGood(requests: seq<seq<Message>>, start: seq<Message>) {
    forall r | r in requests :: Complete(r) <==> Complete(start)
  }

  lemma {:induction false} OneMoreAsGood(requests: seq<seq<Message>>, next: seq<Message>, start: seq<Message>)
    requires AllAsGood(requests, start) && (Complete(next) <==> Complete(start))
    ensures AllAsGood(requests + [next], start)
  {
  }

  /** The first task with this id at or after `from`, or the length when there is none. */
  function FindTask(tasks: seq<AgentTask>, id: string, from: nat): (i: nat)
    requires from <= |tasks|
    ensures from <= i <= |tasks|
    ensures i < |tasks| ==> tasks[i].id == id
    ensures forall k | from <= k < i :: tasks[k].id != id
    decreases |tasks| - from
  {
    if from == |tasks| || tasks[from].id == id then from else FindTask(tasks, id, from + 1)
  }

  /** The first task with an id, in a list that differs only there. */
  lemma {:induction false} FoundAgain(tasks: seq<AgentTask>, after: seq<AgentTask>, id: string)
    requires FindTask(tasks, id, 0) < |tasks| == |after|
    requires after == tasks[FindTask(tasks, id, 0) := after[FindTask(tasks, id, 0)]]
              && after[FindTask(tasks, id, 0)].id == id
    ensures FindTask(after, id, 0) == FindTask(tasks, id, 0)
  {
    var i, j := FindTask(tasks, id, 0), FindTask(after, id, 0);
    assert j <= i by {
      assert after[i].id == id;
    }
  }

  /** How one turn of a task's run leaves it. */
  datatype Step = GoesOn | Cut | Ends

  /** What a run leaves in a task's transcript.  `open` are the calls of the last reply, from
      the one the run was cut at on, whose results are not stored: the transcript is as
      complete as the one it started from exactly when their ids have results all the same. */
  ghost predicate Leaves(start: seq<Message>, llm: seq<Message>, open: seq<ToolCall>) {
    && (Complete(llm) <==> Complete(start) && forall c | c in open :: c.id in TailResults(llm))
    && (open != [] ==>
          var calls := LastCalls(llm);
          && |open| <= |calls| && calls[|calls| - |open|..] == open
          && TailResults(llm) == Ids(calls[..|calls| - |open|]))
  }

  /** What a reply and the results of its calls make of a transcript. */
  function Spoken(llm: seq<Message>, content: string, calls: seq<ToolCall>, w: World): seq<Message> {
    llm + [Assistant(content, calls)] + Answers(calls, w)
  }

  /** The requests of one conversation: each is the one before with that one's reply and the results
      of all the reply's calls. */
  ghost predicate Conversation(requests: seq<seq<Message>>, w: World) {
    forall k | 0 <= k < |requests| - 1 :: GoesOnTo(requests[k], w.reply(k), requests[k + 1], w)
  }

  predicate GoesOnTo(request: seq<Message>, reply: Reply, next: seq<Message>, w: World) {
    reply.Says? && reply.calls != [] && next == Spoken(request, reply.content, reply.calls, w)
  }

  lemma {:induction false} OneMoreRequest(requests: seq<seq<Message>>, next: seq<Message>, start: seq<Message>,
                                          w: World)
    requires AllAsGood(requests, start) && (Complete(next) <==> Complete(start))
    requires Conversation(requests, w)
    requires if requests == [] then next == start
             else requests[0] == start && GoesOnTo(Last(requests), w.reply(|requests| - 1), next, w)
    ensures AllAsGood(requests + [next], start) && Conversation(requests + [next], w)
    ensures (requests + [next])[0] == start && Last(requests + [next]) == next
  {
    OneMoreAsGood(requests, next, start);
  }

  /** How many looks at the context the first n turns take: two at the reply, two at each call. */
  function Looks(w: World, n: nat): nat {
    if n == 0 then 0
    else Looks(w, n - 1) + 2 + if w.reply(n - 1).Says? then 2 * |w.reply(n - 1).calls| else 0
  }

  /** The looks of a conversation that was not cut. */
  function LooksOf(requests: seq<seq<Message>>, w: World): nat
    requires requests != []
  {
    Looks(w, |requests| - 1)
    + (match w.reply(|requests| - 1) case CallFails => 1 case Says(_, calls) => 2 + 2 * |calls|)
  }

  /** How a turn that was not cut ends: a failed call fails the task; a reply without calls is its
      result, unless that is blank; a reply with calls goes on. */
  predicate TurnEnds(request: seq<Message>, reply: Reply, t: AgentTask, w: World) {
    match reply
    case CallFails => t.status == Failed && t.llm == request
    case Says(content, calls) =>
      && t.llm == Spoken(request, content, calls, w)
      && (calls == [] ==>
            if IsBlank(content) then t.status == Failed
            else t.status == Completed && t.result == Strip(content, IsSpace))
  }

  /** What a turn that was cut has stored: nothing of its reply, or the reply and the results of the
      calls before the cut. */
  predicate TurnCut(request: seq<Message>, reply: Reply, t: AgentTask, open: seq<ToolCall>, w: World) {
    || (t.llm == request && open == [])
    || (reply.Says? && open != [] && |open| <= |reply.calls| && reply.calls[|reply.calls| - |open|..] == open
        && t.llm == request + [Assistant(reply.content, reply.calls)]
                    + Answers(reply.calls[..|reply.calls| - |open|], w))
  }

  /** The end of a conversation. */
  predicate ConversationEnds(requests: seq<seq<Message>>, w: World, t: AgentTask, cut: bool, open: seq<ToolCall>)
    requires requests != []
  {
    var reply := w.reply(|requests| - 1);
    if cut then
      TurnCut(Last(requests), reply, t, open, w)
      // cancelled once all the reply's calls had been answered
      || (open == [] && GoesOnTo(Last(requests), reply, t.llm, w))
    else
      TurnEnds(Last(requests), reply, t, w)
      && (reply.Says? && reply.calls != [] ==> |requests| == 40 && t.status == Failed)
  }

  /** A conversation after its first n turns, none of which was the last. */
  ghost predicate Conversing(requests: seq<seq<Message>>, start: seq<Message>, llm: seq<Message>, n: nat, w: World) {
    && |requests| == n && Conversation(requests, w) && AllAsGood(requests, start)
    && (Complete(llm) <==> Complete(start))
    && (if n == 0 then llm == start
        else requests[0] == start && GoesOnTo(Last(requests), w.reply(n - 1), llm, w))
  }

  lemma {:induction false} NextRound(requests: seq<seq<Message>>, start: seq<Message>, llm: seq<Message>,
                                     next: seq<Message>, n: nat, w: World)
    requires Conversing(requests, start, llm, n, w)
    requires GoesOnTo(llm, w.reply(n), next, w) && Leaves(llm, next, [])
    ensures Conversing(requests + [llm], start, next, n + 1, w)
  {
    OneMoreRequest(requests, llm, start, w);
  }

  lemma {:induction false} LastRound(requests: seq<seq<Message>>, start: seq<Message>, llm: seq<Message>, t: AgentTask,
                                     n: nat, w: World, cut: bool, open: seq<ToolCall>, sent: bool)
    requires Conversing(requests, start, llm, n, w) && Leaves(llm, t.llm, open)
    requires if sent then
               if cut then TurnCut(llm, w.reply(n), t, open, w)
               else TurnEnds(llm, w.reply(n), t, w) && (w.reply(n).Says? ==> w.reply(n).calls == [])
             else cut && t.llm == llm && open == []
    ensures var all := if sent then requests + [llm] else requests;
            && Conversation(all, w) && AllAsGood(all, start) && Leaves(start, t.llm, open)
            && (all != [] ==> all[0] == start && ConversationEnds(all, w, t, cut, open))
            && (all == [] ==> t.llm == start)
  {
    if sent {
      OneMoreRequest(requests, llm, start, w);
    }
  }

  class TaskGroup {
    var status: Status
    var tasks: seq<AgentTask>

    constructor (tasks: seq<AgentTask>)
      ensures this.tasks == tasks && status == Pending
    {
      this.tasks := tasks;
      status := Pending;
    }

    method PendingTaskIds() returns (ids: seq<string>)
      ensures ids == PendingIds(tasks)
    {
      ids := [];
      for i := 0 to |tasks|
        invariant ids == PendingIds(tasks[..i])
      {
        assert Front(tasks[..i + 1]) == tasks[..i];
        if tasks[i].status == Pending || tasks[i].status == Running {
          ids := ids + [tasks[i].id];
        }
      }
      assert tasks[..|tasks|] == tasks;
    }

    /** Stores a task's new record in place of the first one with its id, if there is one. */
    method UpdateTask(t: AgentTask) returns (found: bool)
      modifies this`tasks
      ensures var i := FindTask(old(tasks), t.id, 0);
              && (found <==> i < |old(tasks)|)
              && tasks == (if found then old(tasks)[i := t] else old(tasks))
    {
      var i := 0;
      while i < |tasks|
        invariant 0 <= i <= |tasks| && FindTask(tasks, t.id, 0) == FindTask(tasks, t.id, i)
      {
        if tasks[i].id == t.id {
          tasks := tasks[i := t];
          return true;
        }
        i := i + 1;
      }
      return false;
    }

    /** The same for a task known to be there. */
    method Store(ghost i: nat, t: AgentTask)
      requires FindTask(tasks, t.id, 0) == i < |tasks|
      modifies this`tasks
      ensures tasks == old(tasks)[i := t] && FindTask(tasks, t.id, 0) == i
    {
      FoundAgain(tasks, tasks[i := t], t.id);
      var found := UpdateTask(t);
    }

    /** Runs a reply's tool calls in order, storing each result, until a context check sees a
        cancellation. */
    method RunCalls(ghost i: nat, before: AgentTask, calls: seq<ToolCall>, w: World, looksBefore: nat)
      returns (t: AgentTask, looks: nat, open: seq<ToolCall>)
      requires FindTask(tasks, before.id, 0) == i < |tasks| && tasks[i] == before
      modifies this`tasks
      ensures FindTask(tasks, t.id, 0) == i && tasks == old(tasks)[i := t]
      requires looksBefore <= w.cancelAt
      ensures |open| <= |calls| && calls[|calls| - |open|..] == open
      ensures t == before.(llm := before.llm + Answers(calls[..|calls| - |open|], w))
      ensures looks <= w.cancelAt
      ensures if open == [] then looks == looksBefore + 2 * |calls| else looks == w.cancelAt
    {
      t, looks := before, looksBefore;
      assert before.llm + Answers([], w) == before.llm;
      for k := 0 to |calls|
        invariant FindTask(tasks, t.id, 0) == i < |tasks| && tasks == old(tasks)[i := t]
        invariant t == before.(llm := before.llm + Answers(calls[..k], w))
        invariant looks == looksBefore + 2 * k <= w.cancelAt
      {
        if looks >= w.cancelAt { return t, looks, calls[k..]; }
        looks := looks + 1;
        var text := w.tool(calls[k]);
        if looks >= w.cancelAt { return t, looks, calls[k..]; }
        looks := looks + 1;
        NextAnswer(before.llm, calls, k, w);
        t := t.(llm := t.llm + [Tool(calls[k].id, text)]);
        Store(i, t);
      }
      TakeStretch(calls, 0, |calls|);
      open := [];
    }

    /** One turn of the task's own conversation, the n-th: a request, the reply, its calls. */
    method Turn(ghost i: nat, before: AgentTask, n: nat, w: World, looksBefore: nat)
      returns (t: AgentTask, looks: nat, step: Step, open: seq<ToolCall>, sent: bool)
      requires FindTask(tasks, before.id, 0) == i < |tasks| && tasks[i] == before && before.status == Running
      requires looksBefore <= w.cancelAt
      modifies this`tasks
      ensures FindTask(tasks, t.id, 0) == i && tasks == old(tasks)[i := t] && t.id == before.id
      // the provider's rule
      ensures Leaves(before.llm, t.llm, open) && (open != [] ==> step == Cut)
      // what was said
      ensures if step == Cut then TurnCut(before.llm, w.reply(n), t, open, w) && t.status == Running
              else sent && TurnEnds(before.llm, w.reply(n), t, w)
      ensures step == GoesOn ==> GoesOnTo(before.llm, w.reply(n), t.llm, w) && t.status == Running
      ensures step == Ends ==> t.status == Completed || t.status == Failed
      ensures step == Ends ==> w.reply(n).CallFails? || w.reply(n).calls == []
      ensures !sent ==> t == before && step == Cut && open == []
      ensures t.status != Completed ==> t.result == before.result
      ensures t.prompt == before.prompt
      // the looks at the context
      ensures sent <==> looksBefore < w.cancelAt
      ensures looks <= w.cancelAt && (step == Cut ==> looks == w.cancelAt)
      ensures step != Cut ==> looks == looksBefore + (match w.reply(n) case CallFails => 1
                                                                      case Says(_, calls) => 2 + 2 * |calls|)
    {
      t, looks, step, open, sent := before, looksBefore, Cut, [], false;
      if looks >= w.cancelAt { return; }
      looks, sent := looks + 1, true;
      var reply := w.reply(n);
      if reply.CallFails? {
        if looks >= w.cancelAt { return; }
        t, step := t.(status := Failed), Ends;
        Store(i, t);
        return;
      }
      if looks >= w.cancelAt { return; }
      looks := looks + 1;
      t := t.(llm := t.llm + [Assistant(reply.content, reply.calls)]);
      Store(i, t);
      if reply.calls == [] {
        AllAnswered(before.llm, reply.content, [], w);
        assert t.llm + Answers([], w) == t.llm;
        assert Answers([], w) == [] && t.llm + [] == t.llm;
        var result := Strip(reply.content, IsSpace);
        t, step := if result == "" then t.(status := Failed) else t.(status := Completed, result := result), Ends;
        Store(i, t);
        return;
      }
      t, looks, open := RunCalls(i, t, reply.calls, w, looks);
      CallsLeft(before.llm, reply.content, reply.calls, open, w);
      assert reply.calls[..|reply.calls|] == reply.calls;
      step := if open == [] then GoesOn else Cut;
    }

    /** Runs the task with this id.  `cut` says the run left because a context check saw a
        cancellation, `open` are the calls it left without a result, `requests` are the
        transcripts it sent, and `looks` are the context checks that saw none. */
    method RunAgentTask(id: string, w: World)
      returns (cut: bool, requests: seq<seq<Message>>, open: seq<ToolCall>, looks: nat)
      modifies this`tasks
      ensures var i := FindTask(old(tasks), id, 0);
              if i == |old(tasks)| then tasks == old(tasks) && requests == [] && open == []
              else
                var start := Opening(old(tasks)[i], w);
                && |tasks| == |old(tasks)| && tasks == old(tasks)[i := tasks[i]] && tasks[i].id == id
                // it ends settled unless it was cancelled, and a completed task has an answer
                && (!cut ==> tasks[i].status == Completed || tasks[i].status == Failed)
                && (!cut ==> (tasks[i].status == Completed <==> tasks[i].result != ""))
                && tasks[i].prompt == old(tasks)[i].prompt
                && (cut ==> tasks[i].status == Running || tasks[i] == old(tasks)[i])
                // what was said: the requests, and what the last one and its reply leave
                && (requests != [] ==> requests[0] == start && ConversationEnds(requests, w, tasks[i], cut, open))
                && Conversation(requests, w)
                && (requests == [] ==>
                      tasks[i].llm == if looks == 0 || !w.ready then old(tasks)[i].llm else start)
                && (requests == [] && !cut ==> !w.ready && tasks[i].status == Failed)
                // the provider's rule, in what it sent and in what it leaves
                && |requests| <= 40 && AllAsGood(requests, start)
                && Leaves(start, tasks[i].llm, open) && (open != [] ==> cut)
                // cancelled before it began it does nothing; it is cut by the check that sees the
                // cancellation, and by no other
                && (w.cancelAt == 0 ==> cut && requests == [] && tasks == old(tasks))
                && looks <= w.cancelAt && (cut ==> looks == w.cancelAt)
                && (!cut && requests != [] ==> looks == 1 + LooksOf(requests, w))
    {
      ghost var i := FindTask(tasks, id, 0);
      requests, open, cut, looks := [], [], false, 0;
      var k := 0;
      while k < |tasks| && tasks[k].id != id
        invariant 0 <= k <= |tasks| && FindTask(tasks, id, k) == i
      {
        k := k + 1;
      }
      if k < |tasks| {
        OpeningIsAsGood(tasks[k], w);
      }
      if looks >= w.cancelAt { cut := true; return; }
      if k == |tasks| { return; }
      looks := 1;
      var t := tasks[k].(status := Running, result := "");
      Store(i, t);
      if !w.ready {
        Store(i, t.(status := Failed));
        return;
      }
      if |t.llm| == 0 {
        t := t.(llm := [System(w.system), User(t.prompt)]);
        Store(i, t);
      }
      cut, requests, open, looks := Converse(i, t, w, looks);
    }

    /** The conversation: turns until one is the last, at most forty. */
    method Converse(ghost i: nat, before: AgentTask, w: World, looksBefore: nat)
      returns (cut: bool, requests: seq<seq<Message>>, open: seq<ToolCall>, looks: nat)
      requires FindTask(tasks, before.id, 0) == i < |tasks| && tasks[i] == before && before.status == Running
      requires looksBefore <= w.cancelAt
      modifies this`tasks
      ensures |tasks| == |old(tasks)| && tasks == old(tasks)[i := tasks[i]] && tasks[i].id == before.id
      ensures if cut then tasks[i].status == Running else tasks[i].status == Completed || tasks[i].status == Failed
      ensures tasks[i].status == Completed ==> tasks[i].result != ""
      ensures tasks[i].status != Completed ==> tasks[i].result == before.result
      ensures tasks[i].prompt == before.prompt
      ensures Conversation(requests, w)
      ensures if requests == [] then cut && tasks[i] == before
              else requests[0] == before.llm && ConversationEnds(requests, w, tasks[i], cut, open)
      ensures |requests| <= MAX_ITERATIONS && AllAsGood(requests, before.llm)
      ensures Leaves(before.llm, tasks[i].llm, open) && (open != [] ==> cut)
      ensures looks <= w.cancelAt && (cut ==> looks == w.cancelAt)
      ensures !cut ==> looks == looksBefore + LooksOf(requests, w)
    {
      var t := before;
      requests, open, looks := [], [], looksBefore;
      for n := 0 to MAX_ITERATIONS
        invariant FindTask(tasks, t.id, 0) == i < |tasks| && tasks == old(tasks)[i := t]
        invariant t.id == before.id && t.status == Running && (n == 0 ==> t == before)
        invariant t.result == before.result && t.prompt == before.prompt
        invariant Conversing(requests, before.llm, t.llm, n, w)
        invariant looks == looksBefore + Looks(w, n) <= w.cancelAt
      {
        var next, nextLooks, step, left, sent := Turn(i, t, n, w, looks);
        if step == GoesOn {
          NextRound(requests, before.llm, t.llm, next.llm, n, w);
        } else {
          LastRound(requests, before.llm, t.llm, next, n, w, step == Cut, left, sent);
        }
        if sent {
          requests := requests + [t.llm];
        }
        t, looks := next, nextLooks;
        if step != GoesOn {
          return step == Cut, requests, left, looks;
        }
      }
      Store(i, t.(status := Failed));
      return false, requests, [], looks;
    }

    /** A run and the one that takes the task up again: the second starts from the transcript
        the first stored, and when the first left a call open every request of the second
        breaks the provider's rule, as a sub-agent has no backfill. */
    method RunAndResume(id: string, w: World, later: World)
      returns (stored: seq<Message>, open: seq<ToolCall>, requests: seq<seq<Message>>)
      requires FindTask(tasks, id, 0) < |tasks|
      modifies this`tasks
      ensures var start := Opening(old(tasks)[FindTask(old(tasks), id, 0)], w);
              && Leaves(start, stored, open)
              && (stored != [] ==> AllAsGood(requests, stored) && (requests != [] ==> requests[0] == stored))
              && (open != [] && Distinct(Ids(LastCalls(stored))) ==> forall r | r in requests :: !Complete(r))
    {
      ghost var start := Opening(tasks[FindTask(tasks, id, 0)], w);
      ghost var before := tasks;
      var _, _, left, _ := RunAgentTask(id, w);
      FoundAgain(before, tasks, id);
      open := left;
      var i := FindTask(tasks, id, 0);
      stored := tasks[i].llm;
      if open != [] && Distinct(Ids(LastCalls(stored))) {
        LeftCompleteIff(start, stored, open);
      }
      var _, sent, _, _ := RunAgentTask(id, later);
      requests := sent;
    }
  }

  /** The transcript a task starts from: its stored one, when an earlier run left one. */
  function Opening(t: AgentTask, w: World): seq<Message> {
    if t.llm == [] then [System(w.system), User(t.prompt)] else t.llm
  }

  function Answers(calls: seq<ToolCall>, w: World): seq<Message> {
    seq(|calls|, i requires 0 <= i < |calls| => Tool(calls[i].id, w.tool(calls[i])))
  }

  lemma {:induction false} NextAnswer(llm: seq<Message>, calls: seq<ToolCall>, k: nat, w: World)
    requires k < |calls|
    ensures llm + Answers(calls[..k + 1], w) == llm + Answers(calls[..k], w) + [Tool(calls[k].id, w.tool(calls[k]))]
  {
    assert Answers(calls[..k + 1], w) == Answers(calls[..k], w) + [Tool(calls[k].id, w.tool(calls[k]))];
  }

  /** A task without a transcript starts from one that is complete, as no transcript is. */
  lemma {:induction false} OpeningIsAsGood(t: AgentTask, w: World)
    ensures Complete(Opening(t, w)) <==> Complete(t.llm)
  {
    if t.llm == [] {
      assert Opening(t, w) == [] + [System(w.system)] + [User(t.prompt)];
    }
  }

  lemma {:induction false} AnswersOnto(llm: seq<Message>, calls: seq<ToolCall>, w: World)
    ensures Fine(llm + Answers(calls, w)) <==> Fine(llm)
    ensures LastCalls(llm + Answers(calls, w)) == LastCalls(llm)
    ensures TailResults(llm + Answers(calls, w)) == TailResults(llm) + Ids(calls)
  {
    if calls == [] {
      assert llm + Answers(calls, w) == llm;
    } else {
      var most := Front(calls);
      AnswersOnto(llm, most, w);
      assert llm + Answers(calls, w) == (llm + Answers(most, w)) + [Tool(Last(calls).id, w.tool(Last(calls)))];
      AppendTool(llm + Answers(most, w), Last(calls).id, w.tool(Last(calls)));
      assert Ids(calls) == Ids(most) + [Last(calls).id];
    }
  }

  /** A turn whose calls have all been run leaves the transcript as complete as it was. */
  lemma {:induction false} AllAnswered(llm: seq<Message>, content: string, calls: seq<ToolCall>, w: World)
    ensures Complete(llm + [Assistant(content, calls)] + Answers(calls, w)) <==> Complete(llm)
  {
    var said := llm + [Assistant(content, calls)];
    AppendSpeaker(llm, Assistant(content, calls));
    AnswersOnto(said, calls, w);
    CompleteIff(said + Answers(calls, w));
    forall c | c in calls ensures c.id in Ids(calls) {
      var k :| 0 <= k < |calls| && calls[k] == c;
      assert Ids(calls)[k] == c.id;
    }
  }

  /** What a reply's calls leave when they are run up to `open`. */
  lemma {:induction false} CallsLeft(llm: seq<Message>, content: string, calls: seq<ToolCall>, open: seq<ToolCall>,
                                     w: World)
    requires |open| <= |calls| && calls[|calls| - |open|..] == open
    ensures Leaves(llm, llm + [Assistant(content, calls)] + Answers(calls[..|calls| - |open|], w), open)
  {
    var said, run := llm + [Assistant(content, calls)], calls[..|calls| - |open|];
    var stored := said + Answers(run, w);
    AppendSpeaker(llm, Assistant(content, calls));
    AnswersOnto(said, run, w);
    assert TailResults(stored) == Ids(run);
    CompleteIff(stored);
    assert calls == run + open;
    forall c | c in run ensures c.id in Ids(run) {
      var k :| 0 <= k < |run| && run[k] == c;
      assert Ids(run)[k] == c.id;
    }
    assert Owed(stored) == {} <==> forall c | c in open :: c.id in TailResults(stored) by {
      OwedIsOpen(stored, run, open);
    }
  }

  lemma {:induction false} OwedIsOpen(stored: seq<Message>, run: seq<ToolCall>, open: seq<ToolCall>)
    requires LastCalls(stored) == run + open && forall c | c in run :: c.id in TailResults(stored)
    ensures Owed(stored) == {} <==> forall c | c in open :: c.id in TailResults(stored)
  {
    if Owed(stored) == {} {
      forall c | c in open ensures c.id in TailResults(stored) {
        assert c in LastCalls(stored) && c.id in IdSet(LastCalls(stored)) && c.id !in Owed(stored);
      }
    }
  }

  /** Over distinct call ids the transcript left behind is complete exactly when the one it
      started from was, and no call was left open. */
  lemma {:induction false} LeftCompleteIff(start: seq<Message>, llm: seq<Message>, open: seq<ToolCall>)
    requires Leaves(start, llm, open) && Distinct(Ids(LastCalls(llm)))
    ensures Complete(llm) <==> Complete(start) && open == []
  {
    if open != [] {
      var calls := LastCalls(llm);
      var k := |calls| - |open|;
      var ids := Ids(calls);
      assert open[0] == calls[k] && open[0] in open && ids[k] == open[0].id;
      assert forall j | 0 <= j < k :: Ids(calls[..k])[j] == ids[j];
      assert open[0].id !in TailResults(llm);
    }
  }

  /** A run cut between two tool calls leaves a stored transcript with an open call. */
  lemma {:induction false} CutTranscriptIsIncomplete(llm: seq<Message>, content: string, calls: seq<ToolCall>,
                                                     k: nat, w: World)
    requires k < |calls| && Distinct(Ids(calls))
    ensures !Complete(llm + [Assistant(content, calls)] + Answers(calls[..k], w))
  {
    var stored := llm + [Assistant(content, calls)] + Answers(calls[..k], w);
    CallsLeft(llm, content, calls, calls[k..], w);
    AppendSpeaker(llm, Assistant(content, calls));
    AnswersOnto(llm + [Assistant(content, calls)], calls[..k], w);
    LeftCompleteIff(llm, stored, calls[k..]);
  }
}
