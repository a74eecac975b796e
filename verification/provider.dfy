/** One session under every interleaving of its threads: the run loop, the user's calls, and
    any number of threads that append tool results, add rows, change what is waiting, ask
    for a stop or start a run.  An event is one section run under the manager's lock.

    Main results: every request the run loop sends obeys the provider's rule, and the two
    transcripts always hold the same user turns. */
module ProviderRuns {
  import opened Common
  import opened Transcript
  import opened Sessions

  /** Where the session's run loop is.  A request is the transcript it copied under the lock. */
  datatype RunPc =
    | NoRun
    | Starting                          // startRun took the session, the goroutine is not up yet
    | AtTop                             // head of the loop
    | Loading                           // no stop seen at the head
    | Snapped(request: seq<Message>)    // backfilled and copied the transcript
    | Calling(request: seq<Message>)    // the provider call is open
    | Returned                          // the call came back
    | Checked                           // no stop seen after the call
    | Processing                        // running the reply's tool calls
    | Leaving                           // before the deferred unwind
  {
    /** The transcript it copied is on its way to the provider. */
    predicate Sends() {
      Snapped? || Calling?
    }

    /** The run loop relies on the transcript it copied until it appends the reply. */
    predicate Committed() {
      Snapped? || Calling? || Returned? || Checked?
    }
  }

  datatype Chat = Chat(sess: Session, running: bool, stop: bool, run: RunPc)

  datatype Event =
    // the user's calls and the workflows
    | Send(id: string, content: string, prompt: string)
    | Force(id: string, content: string, prompt: string, tc: ToolCall)
    | Rewind(messageId: string)
    // any thread
    | Result(callId: string, text: string, status: string)
    | Row(entry: Entry)
    | Waits(approvals: seq<Pending>, questions: seq<Pending>, queue: seq<ToolCall>)
    | Stop
    | Start
    // the run loop
    | Spawned | Refused
    | Head | Load | Begin | Return | Fail | Check
    | Reply(id: string, content: string, shown: bool, calls: seq<ToolCall>)
    | Drained(again: bool)
    | Paused
    | Exit

  /** What the code lets happen. */
  predicate Allowed(c: Chat, e: Event) {
    match e
    case Send(_, _, _) => !c.running
    case Rewind(messageId) => !c.running && FindUser(c.sess.messages, messageId, 0) < |c.sess.messages|
    case Row(entry) => !entry.role.UserRole?
    case Start => !c.running
    case Spawned => c.run.Starting?
    case Refused => c.run.Starting?
    case Head => c.run.AtTop?
    case Load => c.run.Loading?
    case Begin => c.run.Snapped?
    case Return => c.run.Calling?
    case Fail => c.run.Snapped? || c.run.Calling?
    case Check => c.run.Returned?
    case Reply(_, _, _, _) => c.run.Checked?
    case Drained(_) => c.run.Processing?
    case Paused => c.run.Processing?
    case Exit => c.run.Leaving?
    case _ => true
  }

  /** What the users of a session have to respect: a user turn, typed or forced by a
      workflow, starts only on an idle session whose last turn has no open call. */
  ghost predicate Disciplined(c: Chat, e: Event) {
    e.Send? || e.Force? ==> !c.running && Owed(c.sess.llm) == {}
  }

  function Apply(c: Chat, e: Event): Chat
    requires Allowed(c, e)
  {
    match e
    case Send(id, content, prompt) => c.(sess := SendUser(c.sess, id, content, prompt))
    case Force(id, content, prompt, tc) => c.(sess := ForceCall(c.sess, id, content, prompt, tc))
    case Rewind(messageId) => c.(sess := RewindTo(c.sess, FindUser(c.sess.messages, messageId, 0)))
    case Result(callId, text, status) => c.(sess := AnswerCall(c.sess, callId, text, status))
    case Row(entry) => c.(sess := AddEntry(c.sess, entry))
    case Waits(approvals, questions, queue) =>
      c.(sess := c.sess.(approvals := approvals, questions := questions, queue := queue))
    case Stop => c.(stop := true)
    case Start => c.(running := true, stop := false, run := Starting)
    case Spawned => c.(run := AtTop)
    case Refused => c.(running := false, run := NoRun)
    case Head => c.(run := if c.stop then Leaving else Loading)
    case Load =>
      if c.sess.Waiting() then c.(run := Leaving)
      else
        var llm := EnsureComplete(c.sess.llm);
        c.(sess := c.sess.(llm := llm), run := Snapped(llm))
    case Begin => c.(run := if c.stop then Leaving else Calling(c.run.request))
    case Return => c.(run := Returned)
    case Fail => c.(run := Leaving)
    case Check => c.(run := if c.stop then Leaving else Checked)
    case Reply(id, content, shown, calls) =>
      c.(sess := AddAssistant(c.sess, id, content, shown, calls),
         run := if calls == [] then Leaving else Processing)
    case Drained(again) => c.(run := if again then AtTop else Leaving)
    case Paused => c.(run := Leaving)
    case Exit => c.(running := false, stop := false, run := NoRun)
  }

  // ---------- Runs ----------

  ghost predicate Legal(c: Chat, es: seq<Event>)
    decreases |es|, 0
  {
    es != [] ==> Legal(c, Front(es)) && Allowed(RunAll(c, Front(es)), Last(es))
  }

  ghost function RunAll(c: Chat, es: seq<Event>): Chat
    requires Legal(c, es)
    decreases |es|, 1
  {
    if es == [] then c else Apply(RunAll(c, Front(es)), Last(es))
  }

  ghost predicate AllDisciplined(c: Chat, es: seq<Event>)
    requires Legal(c, es)
  {
    es != [] ==> AllDisciplined(c, Front(es)) && Disciplined(RunAll(c, Front(es)), Last(es))
  }

  lemma {:induction false} Extend(c: Chat, es: seq<Event>, e: Event)
    requires Legal(c, es) && Allowed(RunAll(c, es), e)
    ensures Legal(c, es + [e]) && RunAll(c, es + [e]) == Apply(RunAll(c, es), e)
    ensures AllDisciplined(c, es) && Disciplined(RunAll(c, es), e) ==> AllDisciplined(c, es + [e])
  {
    assert Front(es + [e]) == es;
  }

  /** A session nobody is working on, as a new or a reloaded one is. */
  ghost predicate AtRest(c: Chat) {
    !c.running && c.run.NoRun? && Fine(c.sess.llm) && Aligned(c.sess)
  }

  // ---------- Owning the session ----------

  /** startRun never finds a second run loop: the session is marked running exactly while a
      run loop exists, whatever the users do. */
  lemma {:induction false} OneRunLoop(c: Chat, es: seq<Event>)
    requires AtRest(c) && Legal(c, es)
    ensures RunAll(c, es).running <==> !RunAll(c, es).run.NoRun?
  {
    if es != [] {
      OneRunLoop(c, Front(es));
      OwnedStep(RunAll(c, Front(es)), Last(es));
    }
  }

  lemma {:induction false} OwnedStep(c: Chat, e: Event)
    requires Allowed(c, e) && (c.running <==> !c.run.NoRun?)
    ensures Apply(c, e).running <==> !Apply(c, e).run.NoRun?
  {
  }

  // ---------- The provider's rule ----------

  ghost predicate Sound(c: Chat) {
    && (c.running <==> !c.run.NoRun?)
    && Fine(c.sess.llm)
    && (c.run.Committed() ==> Owed(c.sess.llm) == {})
    && (c.run.Sends() ==> Complete(c.run.request))
  }

  lemma {:induction false} SoundTurn(c: Chat, e: Event)
    requires Sound(c) && Allowed(c, e) && Disciplined(c, e) && (e.Send? || e.Force? || e.Rewind?)
    ensures Sound(Apply(c, e))
  {
    CompleteIff(c.sess.llm);
    match e
    case Send(id, content, prompt) =>
      SendKeepsRuleIff(c.sess, id, content, prompt);
    case Force(id, content, prompt, tc) =>
      ForceKeepsRuleIff(c.sess, id, content, prompt, tc);
    case Rewind(messageId) =>
      FinePrefix(c.sess.llm, |Apply(c, e).sess.llm|);
  }

  lemma {:induction false} SoundResult(c: Chat, callId: string, text: string, status: string)
    requires Sound(c)
    ensures Sound(Apply(c, Result(callId, text, status)))
  {
    AppendTool(c.sess.llm, callId, text);
  }

  lemma {:induction false} SoundLoad(c: Chat)
    requires Sound(c) && Allowed(c, Load)
    ensures Sound(Apply(c, Load))
  {
    if !c.sess.Waiting() {
      var llm := EnsureComplete(c.sess.llm);
      EnsureCompletes(c.sess.llm);
      BackfillOnto(c.sess.llm, Missing(c.sess.llm));
      CompleteIff(llm);
    }
  }

  lemma {:induction false} SoundReply(c: Chat, e: Event)
    requires Sound(c) && Allowed(c, e) && e.Reply?
    ensures Sound(Apply(c, e))
  {
    AppendSpeaker(c.sess.llm, Assistant(e.content, e.calls));
  }

  /** Steps that leave the provider's transcript as it is, and send nothing new. */
  lemma {:induction false} SoundQuiet(c: Chat, e: Event)
    requires Sound(c) && Allowed(c, e)
    requires !e.Send? && !e.Force? && !e.Rewind? && !e.Result? && !e.Load? && !e.Reply?
    ensures Sound(Apply(c, e))
  {
  }

  lemma {:induction false} SoundStep(c: Chat, e: Event)
    requires Sound(c) && Allowed(c, e) && Disciplined(c, e)
    ensures Sound(Apply(c, e))
  {
    if e.Send? || e.Force? || e.Rewind? {
      SoundTurn(c, e);
    } else if e.Result? {
      SoundResult(c, e.callId, e.text, e.status);
    } else if e.Load? {
      SoundLoad(c);
    } else if e.Reply? {
      SoundReply(c, e);
    } else {
      SoundQuiet(c, e);
    }
  }

  /** Whatever the interleaving of stops, pauses, rewinds, late results and restarts, every
      request the run loop sends has each tool call answered before the next turn. */
  lemma {:induction false} EveryRequestIsComplete(c: Chat, es: seq<Event>)
    requires AtRest(c) && Legal(c, es) && AllDisciplined(c, es)
    ensures Sound(RunAll(c, es))
    ensures RunAll(c, es).run.Calling? ==> Complete(RunAll(c, es).run.request)
  {
    if es != [] {
      EveryRequestIsComplete(c, Front(es));
      SoundStep(RunAll(c, Front(es)), Last(es));
    }
  }

  /** A rewind needs no discipline: it always leaves the session ready for its resend. */
  lemma {:induction false} RewindMayResend(c: Chat, es: seq<Event>, messageId: string, id: string, content: string,
                                           prompt: string)
    requires AtRest(c) && Legal(c, es) && AllDisciplined(c, es)
    requires Allowed(RunAll(c, es), Rewind(messageId))
    ensures var r := Apply(RunAll(c, es), Rewind(messageId));
            Complete(r.sess.llm) && Allowed(r, Send(id, content, prompt)) && Disciplined(r, Send(id, content, prompt))
  {
    EveryRequestIsComplete(c, es);
    AlwaysAligned(c, es);
    var s := RunAll(c, es).sess;
    var i := FindUser(s.messages, messageId, 0);
    RewindFindsItsCut(s, i);
    CompleteIff(RewindTo(s, i).llm);
  }

  // ---------- The discipline is needed ----------

  /** The rule is broken, and stays broken. */
  ghost predicate Broken(c: Chat) {
    && (c.running <==> !c.run.NoRun?)
    && !Fine(c.sess.llm)
    && (c.run.Sends() ==> !Complete(c.run.request))
  }

  lemma {:induction false} BrokenStep(c: Chat, e: Event)
    requires Broken(c) && Allowed(c, e) && !e.Rewind?
    ensures Broken(Apply(c, e))
  {
    var llm := c.sess.llm;
    CompleteIff(llm);
    match e
    case Send(id, content, prompt) =>
      SendKeepsRuleIff(c.sess, id, content, prompt);
    case Force(id, content, prompt, tc) =>
      ForceKeepsRuleIff(c.sess, id, content, prompt, tc);
    case Result(callId, text, status) =>
      AppendTool(llm, callId, text);
    case Load =>
      if !c.sess.Waiting() {
        EnsureCompletes(llm);
        BackfillOnto(llm, Missing(llm));
      }
    case Reply(id, content, shown, calls) =>
      AppendSpeaker(llm, Assistant(content, calls));
    case _ =>
  }

  lemma {:induction false} StaysBroken(c: Chat, es: seq<Event>)
    requires Broken(c) && Legal(c, es) && forall e | e in es :: !e.Rewind?
    ensures Broken(RunAll(c, es))
  {
    if es != [] {
      assert es == Front(es) + [Last(es)];
      StaysBroken(c, Front(es));
      BrokenStep(RunAll(c, Front(es)), Last(es));
    }
  }

  /** Send itself only asks that no run loop owns the session.  On a session at rest with an
      open call -- an approval still waiting, say -- it goes through, and from then on every
      request breaks the rule until the user rewinds.  With no open call the rule is kept. */
  lemma {:induction false} SendKeepsTheRuleIff(c: Chat, id: string, content: string, prompt: string)
    requires Sound(c) && !c.running
    ensures var d := Apply(c, Send(id, content, prompt));
            && (Owed(c.sess.llm) == {} ==> Sound(d))
            && (Owed(c.sess.llm) != {} ==> Broken(d))
  {
    SendKeepsRuleIff(c.sess, id, content, prompt);
    CompleteIff(c.sess.llm);
  }

  lemma {:induction false} OpenCallPoisonsRequests(c: Chat, id: string, content: string, prompt: string, es: seq<Event>)
    requires Sound(c) && !c.running && Owed(c.sess.llm) != {}
    requires Legal(Apply(c, Send(id, content, prompt)), es) && forall e | e in es :: !e.Rewind?
    ensures var d := RunAll(Apply(c, Send(id, content, prompt)), es);
            d.run.Calling? ==> !Complete(d.run.request)
  {
    SendKeepsTheRuleIff(c, id, content, prompt);
    StaysBroken(Apply(c, Send(id, content, prompt)), es);
  }

  /** A workflow's round -- the code looks at nothing before it -- keeps the rule exactly when
      no call is open and no run loop has copied the transcript without having replied yet. */
  lemma {:induction false} ForceKeepsTheRuleIff(c: Chat, id: string, content: string, prompt: string, tc: ToolCall)
    requires Sound(c)
    ensures Sound(Apply(c, Force(id, content, prompt, tc))) <==> Owed(c.sess.llm) == {} && !c.run.Committed()
  {
    ForceKeepsRuleIff(c.sess, id, content, prompt, tc);
    CompleteIff(c.sess.llm);
  }

  /** A reply that lands keeps the rule exactly when nothing is owed: after a round that came
      during the call, exactly when the round's own call has been answered by then. */
  lemma {:induction false} ReplyKeepsTheRuleIff(c: Chat, reply: Event)
    requires c.run.Checked? && c.running && Fine(c.sess.llm) && reply.Reply?
    ensures Owed(c.sess.llm) == {} ==> Sound(Apply(c, reply))
    ensures Owed(c.sess.llm) != {} ==> Broken(Apply(c, reply))
  {
    CompleteIff(c.sess.llm);
    AppendSpeaker(c.sess.llm, Assistant(reply.content, reply.calls));
  }

  predicate AllResults(es: seq<Event>) {
    forall e | e in es :: e.Result?
  }

  /** The calls these results answer. */
  function Called(results: seq<Event>): set<string>
    requires AllResults(results)
  {
    set e | e in results :: e.callId
  }

  /** The results of other calls do not help: what the round owes is its own call, until that
      is answered. */
  lemma {:induction false} ForceDuringCall(c: Chat, id: string, content: string, prompt: string, tc: ToolCall,
                                           results: seq<Event>, reply: Event)
    requires Sound(c) && Owed(c.sess.llm) == {} && c.run.Checked? && reply.Reply?
    requires AllResults(results)
    requires Legal(Apply(c, Force(id, content, prompt, tc)), results)
    ensures var d := RunAll(Apply(c, Force(id, content, prompt, tc)), results);
            && d.run.Checked?
            && (tc.id in Called(results) ==> Sound(Apply(d, reply)))
            && (tc.id !in Called(results) ==> Broken(Apply(d, reply)))
  {
    var f := Apply(c, Force(id, content, prompt, tc));
    ForceKeepsRuleIff(c.sess, id, content, prompt, tc);
    CompleteIff(c.sess.llm);
    ResultsSettle(f, results);
    var d := RunAll(f, results);
    ReplyKeepsTheRuleIff(d, reply);
    if tc.id in Called(results) {
      assert Owed(d.sess.llm) == {};
    } else {
      assert tc.id in Owed(d.sess.llm);
    }
  }

  lemma {:induction false} ResultsSettle(c: Chat, results: seq<Event>)
    requires AllResults(results) && Legal(c, results)
    ensures var d := RunAll(c, results);
            && d.run == c.run && d.running == c.running && (Fine(d.sess.llm) <==> Fine(c.sess.llm))
            && Owed(d.sess.llm) == Owed(c.sess.llm) - Called(results)
  {
    if results != [] {
      var most, e := Front(results), Last(results);
      assert results == most + [e];
      ResultsSettle(c, most);
      AppendTool(RunAll(c, most).sess.llm, e.callId, e.text);
      assert Called(results) == Called(most) + {e.callId};
    }
  }

  // ---------- The two transcripts ----------

  lemma {:induction false} AlignedStep(c: Chat, e: Event)
    requires Aligned(c.sess) && Allowed(c, e)
    ensures Aligned(Apply(c, e).sess)
  {
    var s := c.sess;
    match e
    case Send(id, content, prompt) =>
      EntryAppend(s.messages, Entry(id, UserRole, content, "completed", "", ""));
      SendKeepsRuleIff(s, id, content, prompt);
    case Force(id, content, prompt, tc) =>
      EntryAppend(s.messages, Entry(id, UserRole, content, "completed", "", ""));
      ForceKeepsRuleIff(s, id, content, prompt, tc);
    case Rewind(messageId) =>
      RewindFindsItsCut(s, FindUser(s.messages, messageId, 0));
    case Result(callId, text, status) =>
      FillKeepsTurns(s.messages, callId, text, status);
      MessageAppend(s.llm, Tool(callId, text));
    case Row(entry) =>
      EntryAppend(s.messages, entry);
    case Load =>
      MessageBackfill(s.llm, Missing(s.llm));
    case Reply(id, content, shown, calls) =>
      EntryAppend(s.messages, Entry(id, AssistantRole, content, "completed", "", ""));
      MessageAppend(s.llm, Assistant(content, calls));
    case _ =>
  }

  /** The two transcripts hold the same user turns in every reachable state, with no
      discipline asked of anyone. */
  lemma {:induction false} AlwaysAligned(c: Chat, es: seq<Event>)
    requires AtRest(c) && Legal(c, es)
    ensures Aligned(RunAll(c, es).sess)
  {
    if es != [] {
      AlwaysAligned(c, Front(es));
      AlignedStep(RunAll(c, Front(es)), Last(es));
    }
  }

  /** So in every reachable state the rewind's search for the user turn succeeds, in both
      transcripts at the same turn. */
  lemma {:induction false} RewindAlwaysFindsItsCut(c: Chat, es: seq<Event>, messageId: string)
    requires AtRest(c) && Legal(c, es) && Allowed(RunAll(c, es), Rewind(messageId))
    ensures var s := RunAll(c, es).sess;
            var i := FindUser(s.messages, messageId, 0);
            var cut := NthUser(s.llm, Ordinal(s.messages, i));
            && cut < |s.llm| && s.llm[cut] == User(s.messages[i].content)
            && EntryTurns(s.messages[..i]) == MessageTurns(s.llm[..cut])
  {
    AlwaysAligned(c, es);
    var s := RunAll(c, es).sess;
    RewindFindsItsCut(s, FindUser(s.messages, messageId, 0));
  }

  // ---------- How often the provider is asked ----------

  /** The provider calls that begin in a run. */
  ghost function Asked(c: Chat, es: seq<Event>): nat
    requires Legal(c, es)
  {
    if es == [] then 0
    else Asked(c, Front(es)) + if Last(es).Begin? && RunAll(c, es).run.Calling? then 1 else 0
  }

  /** The run loops that start in it, and the batches of calls after which one goes on. */
  function Reasons(es: seq<Event>): nat {
    if es == [] then 0
    else Reasons(Front(es)) + if Last(es).Start? || (Last(es).Drained? && Last(es).again) then 1 else 0
  }

  /** Whether the run loop is on its way to a call. */
  function OnItsWay(run: RunPc): nat {
    if run.Starting? || run.AtTop? || run.Loading? || run.Snapped? then 1 else 0
  }

  /** Each provider call has its own reason: the start of a run loop, or a batch of calls that has been
      worked off.  A call that fails, a reply without calls, a pause and a stop are no reason. */
  lemma {:induction false} AskedForAReason(c: Chat, es: seq<Event>)
    requires Legal(c, es)
    ensures Asked(c, es) + OnItsWay(RunAll(c, es).run) <= OnItsWay(c.run) + Reasons(es)
  {
    if es != [] {
      AskedForAReason(c, Front(es));
      AskedStep(RunAll(c, Front(es)), Last(es));
    }
  }

  lemma {:induction false} AskedStep(c: Chat, e: Event)
    requires Allowed(c, e)
    ensures (if e.Begin? && Apply(c, e).run.Calling? then 1 else 0) + OnItsWay(Apply(c, e).run)
         <= OnItsWay(c.run) + if e.Start? || (e.Drained? && e.again) then 1 else 0
  {
  }

  /** A run from one state to another. */
  ghost predicate Leads(c: Chat, es: seq<Event>, d: Chat) {
    Legal(c, es) && RunAll(c, es) == d
  }

  lemma {:induction false} LeadsOn(c: Chat, es: seq<Event>, d: Chat, e: Event) returns (more: seq<Event>)
    requires Leads(c, es, d) && Allowed(d, e)
    ensures more == es + [e] && Leads(c, more, Apply(d, e))
  {
    Extend(c, es, e);
    more := es + [e];
  }

  lemma {:induction false} LeadsNowhere(c: Chat)
    ensures Leads(c, [], c)
  {
  }

  /** Undisturbed, a run loop with nothing waiting sends the whole transcript, backfilled. */
  lemma {:induction false} SendsTheTranscript(c: Chat) returns (es: seq<Event>)
    requires c.run.AtTop? && !c.stop && !c.sess.Waiting()
    ensures es == [Head, Load, Begin]
    ensures var llm := EnsureComplete(c.sess.llm); Leads(c, es, c.(sess := c.sess.(llm := llm), run := Calling(llm)))
  {
    LeadsNowhere(c);
    es := LeadsOn(c, [], c, Head);
    es := LeadsOn(c, es, c.(run := Loading), Load);
    var llm := EnsureComplete(c.sess.llm);
    es := LeadsOn(c, es, c.(sess := c.sess.(llm := llm), run := Snapped(llm)), Begin);
  }

  /** And it appends the reply to what it sent; then it works on the reply's calls, or leaves when
      there are none. */
  lemma {:induction false} TakesTheReply(c: Chat, id: string, content: string, shown: bool, calls: seq<ToolCall>)
    returns (es: seq<Event>)
    requires c.run.Calling? && !c.stop
    ensures es == [Return, Check, Reply(id, content, shown, calls)]
    ensures Leads(c, es, c.(sess := AddAssistant(c.sess, id, content, shown, calls),
                            run := if calls == [] then Leaving else Processing))
    ensures AddAssistant(c.sess, id, content, shown, calls).llm == c.sess.llm + [Assistant(content, calls)]
    ensures AddAssistant(c.sess, id, content, shown, calls).messages
         == c.sess.messages + if shown then [Entry(id, AssistantRole, content, "completed", "", "")] else []
  {
    LeadsNowhere(c);
    es := LeadsOn(c, [], c, Return);
    es := LeadsOn(c, es, c.(run := Returned), Check);
    es := LeadsOn(c, es, c.(run := Checked), Reply(id, content, shown, calls));
  }

  /** An idle session gets there by a start, which takes back any stop from before, and a run loop that
      has worked off a reply's calls by going on. */
  lemma {:induction false} RoundsFollow(c: Chat) returns (es: seq<Event>)
    requires c.run.Processing? || !c.running
    ensures es == if c.run.Processing? then [Drained(true)] else [Start, Spawned]
    ensures Leads(c, es, if c.run.Processing? then c.(run := AtTop)
                         else c.(running := true, stop := false, run := AtTop))
  {
    LeadsNowhere(c);
    if c.run.Processing? {
      es := LeadsOn(c, [], c, Drained(true));
    } else {
      es := LeadsOn(c, [], c, Start);
      es := LeadsOn(c, es, c.(running := true, stop := false, run := Starting), Spawned);
    }
  }
}
