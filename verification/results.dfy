/** The other half of the provider's rule: every tool message answers a call of the turn it is
    in, and no call is answered twice.  The code keeps this half only when each result comes
    while its call is still open; that is the exact condition, over whole runs. */
module ResultRuns {
  import opened Common
  import opened Transcript
  import opened Sessions
  import opened ProviderRuns

  // ---------- The rule, twice ----------

  /** The tool message at `i` answers a call of the message at `s`, the last one that spoke, and
      nothing in between has. */
  ghost predicate AnswersAt(llm: seq<Message>, id: string, s: nat, i: nat) {
    && s < i <= |llm| && llm[s].Assistant? && id in IdSet(llm[s].calls)
    && forall j | s < j < i :: !llm[j].Speaks() && !(llm[j].Tool? && llm[j].id == id)
  }

  ghost predicate AnswersOnce(llm: seq<Message>, i: nat)
    requires i < |llm| && llm[i].Tool?
  {
    exists s: nat :: AnswersAt(llm, llm[i].id, s, i)
  }

  /** The rule by positions. */
  ghost predicate EachAnswersOnce(llm: seq<Message>) {
    forall i | 0 <= i < |llm| && llm[i].Tool? :: AnswersOnce(llm, i)
  }

  /** The rule as a running account. */
  ghost predicate Tidy(llm: seq<Message>) {
    llm != [] ==> Tidy(Front(llm)) && (Last(llm).Tool? ==> Last(llm).id in Owed(Front(llm)))
  }

  /** A call that a tool message could answer now, by positions. */
  ghost predicate OpenCall(llm: seq<Message>, id: string) {
    exists s: nat :: AnswersAt(llm, id, s, |llm|)
  }

  lemma {:induction false} OwedIff(llm: seq<Message>, id: string)
    ensures id in Owed(llm) <==> OpenCall(llm, id)
  {
    if llm != [] {
      var most, last := Front(llm), Last(llm);
      assert llm == most + [last];
      OwedIff(most, id);
      if last.Speaks() {
        OpenAfterSpeaker(most, last, id);
      } else {
        OpenGoesOn(most, last, id);
      }
    }
  }

  lemma {:induction false} OpenAfterSpeaker(llm: seq<Message>, m: Message, id: string)
    requires m.Speaks()
    ensures OpenCall(llm + [m], id) <==> m.Assistant? && id in IdSet(m.calls)
  {
    var all := llm + [m];
    if m.Assistant? && id in IdSet(m.calls) {
      assert AnswersAt(all, id, |llm|, |all|);
    }
    if OpenCall(all, id) {
      var s: nat :| AnswersAt(all, id, s, |all|);
      assert all[|llm|].Speaks();
    }
  }

  lemma {:induction false} OpenGoesOn(llm: seq<Message>, m: Message, id: string)
    requires !m.Speaks()
    ensures OpenCall(llm + [m], id) <==> OpenCall(llm, id) && !(m.Tool? && m.id == id)
  {
    var all := llm + [m];
    if OpenCall(all, id) {
      var s: nat :| AnswersAt(all, id, s, |all|);
      assert all[|llm|] == m;
      assert !(all[|llm|].Tool? && all[|llm|].id == id);
      assert forall j | s < j < |llm| :: all[j] == llm[j];
      assert AnswersAt(llm, id, s, |llm|);
    }
    if OpenCall(llm, id) && !(m.Tool? && m.id == id) {
      var s: nat :| AnswersAt(llm, id, s, |llm|);
      assert AnswersAt(all, id, s, |all|);
    }
  }

  lemma {:induction false} AnswersInPrefix(llm: seq<Message>, id: string, s: nat, i: nat, n: nat)
    requires i <= n <= |llm|
    ensures AnswersAt(llm[..n], id, s, i) <==> AnswersAt(llm, id, s, i)
  {
    assert forall j | 0 <= j < n :: llm[..n][j] == llm[j];
  }

  lemma {:induction false} TidyIff(llm: seq<Message>)
    ensures Tidy(llm) <==> EachAnswersOnce(llm)
  {
    if llm != [] {
      var n := |llm| - 1;
      TidyIff(Front(llm));
      forall i | 0 <= i < n && llm[i].Tool? ensures AnswersOnce(Front(llm), i) <==> AnswersOnce(llm, i) {
        OnceInPrefix(llm, i, n);
      }
      if llm[n].Tool? {
        OwedIff(Front(llm), llm[n].id);
        forall s: nat ensures AnswersAt(Front(llm), llm[n].id, s, n) <==> AnswersAt(llm, llm[n].id, s, n) {
          AnswersInPrefix(llm, llm[n].id, s, n, n);
        }
      }
      EachSplit(llm);
    }
  }

  lemma {:induction false} OnceInPrefix(llm: seq<Message>, i: nat, n: nat)
    requires i < n <= |llm| && llm[i].Tool?
    ensures AnswersOnce(llm[..n], i) <==> AnswersOnce(llm, i)
  {
    forall s: nat ensures AnswersAt(llm[..n], llm[i].id, s, i) <==> AnswersAt(llm, llm[i].id, s, i) {
      AnswersInPrefix(llm, llm[i].id, s, i, n);
    }
  }

  lemma {:induction false} EachSplit(llm: seq<Message>)
    requires llm != []
    requires forall i | 0 <= i < |llm| - 1 && llm[i].Tool? :: AnswersOnce(Front(llm), i) <==> AnswersOnce(llm, i)
    ensures EachAnswersOnce(llm)
       <==> EachAnswersOnce(Front(llm)) && (Last(llm).Tool? ==> AnswersOnce(llm, |llm| - 1))
  {
    var n := |llm| - 1;
    if EachAnswersOnce(llm) {
      forall i | 0 <= i < n && Front(llm)[i].Tool? ensures AnswersOnce(Front(llm), i) {
        assert llm[i].Tool? && AnswersOnce(llm, i);
      }
    }
    if EachAnswersOnce(Front(llm)) && (Last(llm).Tool? ==> AnswersOnce(llm, n)) {
      forall i | 0 <= i < |llm| && llm[i].Tool? ensures AnswersOnce(llm, i) {
        if i < n {
          assert Front(llm)[i].Tool?;
        }
      }
    }
  }

  // ---------- What each section does to it ----------

  /** Calls of one message have ids of their own, and none is empty. */
  predicate Named(calls: seq<ToolCall>) {
    Distinct(Ids(calls)) && "" !in Ids(calls)
  }

  predicate AllNamed(llm: seq<Message>) {
    forall m | m in llm && m.Assistant? :: Named(m.calls)
  }

  lemma {:induction false} TidyTool(llm: seq<Message>, id: string, content: string)
    ensures Tidy(llm + [Tool(id, content)]) <==> Tidy(llm) && id in Owed(llm)
  {
    assert Front(llm + [Tool(id, content)]) == llm;
  }

  lemma {:induction false} TidyOther(llm: seq<Message>, m: Message)
    requires !m.Tool?
    ensures Tidy(llm + [m]) <==> Tidy(llm)
  {
    assert Front(llm + [m]) == llm;
  }

  lemma {:induction false} TidyPrefix(llm: seq<Message>, n: nat)
    requires Tidy(llm) && n <= |llm|
    ensures Tidy(llm[..n])
  {
    if n < |llm| {
      TidyPrefix(Front(llm), n);
      assert Front(llm)[..n] == llm[..n];
    } else {
      assert llm[..n] == llm;
    }
  }

  lemma {:induction false} TidySystem(llm: seq<Message>, prompt: string)
    ensures Tidy(SetSystem(llm, prompt)) <==> Tidy(llm)
  {
    var r := SetSystem(llm, prompt);
    if llm == [] {
      assert Front(r) == [];
    } else {
      var most := Front(llm);
      TidySystem(most, prompt);
      SetSystemKeeps(most, prompt);
      if most == [] && llm[0].System? {
        assert r == [System(prompt)] && Front(r) == [];
      } else {
        assert Front(r) == SetSystem(most, prompt) && Last(r) == Last(llm);
      }
    }
  }

  lemma {:induction false} TidyBackfill(llm: seq<Message>, calls: seq<ToolCall>)
    requires Distinct(Ids(calls)) && forall c | c in calls :: c.id in Owed(llm)
    ensures Tidy(llm + Backfill(calls)) <==> Tidy(llm)
  {
    if calls == [] {
      assert llm + Backfill(calls) == llm;
    } else {
      var most, last := Front(calls), Last(calls);
      assert last in calls && forall c | c in most :: c in calls;
      assert Ids(calls) == Ids(most) + [last.id];
      DistinctFront(Ids(calls));
      TidyBackfill(llm, most);
      assert llm + Backfill(calls) == (llm + Backfill(most)) + [Tool(last.id, BACKFILL)];
      BackfillOnto(llm, most);
      TidyTool(llm + Backfill(most), last.id, BACKFILL);
    }
  }

  /** What is missing is owed, one call an id. */
  lemma {:induction false} MissingIsOwed(llm: seq<Message>)
    requires Named(LastCalls(llm))
    ensures Distinct(Ids(Missing(llm))) && forall c | c in Missing(llm) :: c.id in Owed(llm)
  {
    UnansweredDistinct(LastCalls(llm), TailResults(llm));
    forall c | c in Missing(llm) ensures c.id in Owed(llm) {
      UnansweredMembers(LastCalls(llm), TailResults(llm), c);
      var k :| 0 <= k < |LastCalls(llm)| && LastCalls(llm)[k] == c;
      assert Ids(LastCalls(llm))[k] == c.id;
    }
  }

  lemma {:induction false} UnansweredDistinct(calls: seq<ToolCall>, answered: seq<string>)
    requires Distinct(Ids(calls))
    ensures Distinct(Ids(Unanswered(calls, answered)))
  {
    if calls != [] {
      var most, rest := calls[1..], Unanswered(calls[1..], answered);
      assert Ids(calls) == [calls[0].id] + Ids(most);
      DistinctTail(calls[0].id, Ids(most));
      UnansweredDistinct(most, answered);
      assert Ids([calls[0]] + rest) == [calls[0].id] + Ids(rest) && Ids([] + rest) == Ids(rest);
      if calls[0].id in Ids(rest) {
        UnansweredIds(most, answered, calls[0].id);
      } else {
        DistinctTail(calls[0].id, Ids(rest));
      }
    }
  }

  lemma {:induction false} DistinctFront(s: seq<string>)
    requires s != [] && Distinct(s)
    ensures Distinct(Front(s)) && Last(s) !in Front(s)
  {
  }

  lemma {:induction false} DistinctTail(x: string, s: seq<string>)
    ensures Distinct([x] + s) <==> x !in s && Distinct(s)
  {
    var all := [x] + s;
    assert forall i | 0 <= i < |s| :: all[i + 1] == s[i];
    if Distinct(all) {
      forall i, j | 0 <= i < j < |s| ensures s[i] != s[j] {
        assert all[i + 1] != all[j + 1];
      }
      forall i | 0 <= i < |s| ensures s[i] != x {
        assert all[0] != all[i + 1];
      }
    }
  }

  lemma {:induction false} UnansweredIds(calls: seq<ToolCall>, answered: seq<string>, id: string)
    requires id in Ids(Unanswered(calls, answered))
    ensures id in Ids(calls)
  {
    var rest := Unanswered(calls, answered);
    var k :| 0 <= k < |rest| && Ids(rest)[k] == id;
    UnansweredMembers(calls, answered, rest[k]);
    var i :| 0 <= i < |calls| && calls[i] == rest[k];
    assert Ids(calls)[i] == id;
  }

  lemma {:induction false} LastCallsNamed(llm: seq<Message>)
    requires AllNamed(llm)
    ensures Named(LastCalls(llm))
  {
    if llm != [] {
      assert Last(llm) in llm && forall m | m in Front(llm) :: m in llm;
      LastCallsNamed(Front(llm));
    }
  }

  /** The backfill answers each open call once. */
  lemma {:induction false} TidyEnsure(llm: seq<Message>)
    requires AllNamed(llm)
    ensures Tidy(EnsureComplete(llm)) <==> Tidy(llm)
  {
    LastCallsNamed(llm);
    MissingIsOwed(llm);
    TidyBackfill(llm, Missing(llm));
  }

  // ---------- Whole runs ----------

  /** The provider, and a workflow, name the calls they make. */
  predicate NamesCalls(e: Event) {
    (e.Reply? ==> Named(e.calls)) && (e.Force? ==> e.tc.id != "")
  }

  /** A result comes while its call is open. */
  ghost predicate OnTime(c: Chat, e: Event) {
    e.Result? ==> e.callId in Owed(c.sess.llm)
  }

  ghost predicate AllOnTime(c: Chat, es: seq<Event>)
    requires Legal(c, es)
  {
    es != [] ==> AllOnTime(c, Front(es)) && OnTime(RunAll(c, Front(es)), Last(es))
  }

  lemma {:induction false} NamedStep(c: Chat, e: Event)
    requires AllNamed(c.sess.llm) && Allowed(c, e) && NamesCalls(e)
    ensures AllNamed(Apply(c, e).sess.llm)
  {
    if e.Force? {
      assert Ids([e.tc]) == [e.tc.id];
    }
  }

  lemma {:induction false} TidyStep(c: Chat, e: Event)
    requires AllNamed(c.sess.llm) && Allowed(c, e) && !e.Rewind?
    ensures Tidy(Apply(c, e).sess.llm) <==> Tidy(c.sess.llm) && OnTime(c, e)
  {
    var llm := c.sess.llm;
    if e.Send? {
      TidySystem(llm, e.prompt);
      TidyOther(SetSystem(llm, e.prompt), User(e.content));
    } else if e.Force? {
      TidySystem(llm, e.prompt);
      TidyOther(SetSystem(llm, e.prompt), User(e.content));
      TidyOther(SetSystem(llm, e.prompt) + [User(e.content)], Assistant("", [e.tc]));
    } else if e.Result? {
      TidyTool(llm, e.callId, e.text);
    } else if e.Load? {
      TidyEnsure(llm);
    } else if e.Reply? {
      TidyOther(llm, Assistant(e.content, e.calls));
    }
  }

  /** The transcript is tidy, and so is the request that was copied from it. */
  ghost predicate TidyState(c: Chat) {
    && AllNamed(c.sess.llm) && Tidy(c.sess.llm)
    && (c.run.Sends() ==> Tidy(c.run.request))
  }

  lemma {:induction false} TidyRewind(c: Chat, e: Event)
    requires TidyState(c) && Allowed(c, e) && e.Rewind?
    ensures TidyState(Apply(c, e))
  {
    TidyPrefix(c.sess.llm, |Apply(c, e).sess.llm|);
  }

  lemma {:induction false} TidyCopy(c: Chat, e: Event)
    requires TidyState(c) && Allowed(c, e) && !e.Rewind? && Tidy(Apply(c, e).sess.llm)
    ensures Apply(c, e).run.Sends() ==> Tidy(Apply(c, e).run.request)
  {
  }

  lemma {:induction false} TidyStateStep(c: Chat, e: Event)
    requires TidyState(c) && Allowed(c, e) && NamesCalls(e) && OnTime(c, e)
    ensures TidyState(Apply(c, e))
  {
    if e.Rewind? {
      TidyRewind(c, e);
    } else {
      TidyStep(c, e);
      TidyCopy(c, e);
      NamedStep(c, e);
    }
  }

  /** While results come on time, every transcript and every request is tidy, through rewinds,
      stops and restarts. */
  lemma {:induction false} OnTimeIsTidy(c: Chat, es: seq<Event>)
    requires AtRest(c) && Tidy(c.sess.llm) && AllNamed(c.sess.llm)
    requires Legal(c, es) && AllOnTime(c, es) && forall e | e in es :: NamesCalls(e)
    ensures TidyState(RunAll(c, es))
  {
    if es != [] {
      assert Last(es) in es && forall e | e in Front(es) :: e in es;
      OnTimeIsTidy(c, Front(es));
      TidyStateStep(RunAll(c, Front(es)), Last(es));
    }
  }

  /** Without a rewind, that is the exact condition: one late result, and the transcript has a
      tool message without an open call for good. */
  lemma {:induction false} TidyIffOnTime(c: Chat, es: seq<Event>)
    requires AtRest(c) && Tidy(c.sess.llm) && AllNamed(c.sess.llm)
    requires Legal(c, es) && forall e | e in es :: NamesCalls(e) && !e.Rewind?
    ensures AllNamed(RunAll(c, es).sess.llm)
    ensures Tidy(RunAll(c, es).sess.llm) <==> AllOnTime(c, es)
  {
    if es != [] {
      assert Last(es) in es && forall e | e in Front(es) :: e in es;
      TidyIffOnTime(c, Front(es));
      NamedStep(RunAll(c, Front(es)), Last(es));
      TidyStep(RunAll(c, Front(es)), Last(es));
    }
  }

  // ---------- With rewinds ----------

  /** A transcript without its system messages. */
  function Body(llm: seq<Message>): seq<Message> {
    if llm == [] then []
    else if Last(llm).System? then Body(Front(llm))
    else Body(Front(llm)) + [Last(llm)]
  }

  lemma {:induction false} BodyAppend(llm: seq<Message>, m: Message)
    ensures Body(llm + [m]) == Body(llm) + if m.System? then [] else [m]
  {
    assert Front(llm + [m]) == llm;
  }

  lemma {:induction false} BodyPrefix(llm: seq<Message>, n: nat)
    requires n <= |llm|
    ensures Body(llm[..n]) <= Body(llm)
  {
    if n < |llm| {
      BodyPrefix(Front(llm), n);
      assert Front(llm)[..n] == llm[..n];
    } else {
      assert llm[..n] == llm;
    }
  }

  lemma {:induction false} BodyBehindSystem(m: Message, rest: seq<Message>)
    requires m.System?
    ensures Body([m] + rest) == Body(rest)
  {
    if rest == [] {
      assert [m] + rest == [] + [m];
      BodyAppend([], m);
    } else {
      BodyBehindSystem(m, Front(rest));
      assert [m] + rest == [m] + Front(rest) + [Last(rest)];
      BodyAppend([m] + Front(rest), Last(rest));
    }
  }

  lemma {:induction false} BodySystem(llm: seq<Message>, prompt: string)
    ensures Body(SetSystem(llm, prompt)) == Body(llm)
  {
    if llm != [] && llm[0].System? {
      assert llm == [llm[0]] + llm[1..] && SetSystem(llm, prompt) == [System(prompt)] + llm[1..];
      BodyBehindSystem(llm[0], llm[1..]);
      BodyBehindSystem(System(prompt), llm[1..]);
    } else {
      BodyBehindSystem(System(prompt), llm);
    }
  }

  /** System messages are no part of the account. */
  lemma {:induction false} BodyCounts(llm: seq<Message>)
    ensures LastCalls(Body(llm)) == LastCalls(llm) && TailResults(Body(llm)) == TailResults(llm)
    ensures Tidy(Body(llm)) <==> Tidy(llm)
  {
    if llm != [] {
      BodyCounts(Front(llm));
      if !Last(llm).System? {
        assert Front(Body(llm)) == Body(Front(llm));
      }
    }
  }

  /** The message at `i` is no result, or the result of a call that was open then. */
  ghost predicate TidyAt(llm: seq<Message>, i: nat)
    requires i < |llm|
  {
    llm[i].Tool? ==> llm[i].id in Owed(llm[..i])
  }

  predicate AllTrue(marks: seq<bool>) {
    forall i | 0 <= i < |marks| :: marks[i]
  }

  /** A mark for each message, kept up to date. */
  ghost predicate Marked(llm: seq<Message>, marks: seq<bool>) {
    |marks| == |llm| && forall i | 0 <= i < |llm| :: marks[i] <==> TidyAt(llm, i)
  }

  lemma {:induction false} MarkedPrefix(llm: seq<Message>, marks: seq<bool>, n: nat)
    requires Marked(llm, marks) && n <= |llm|
    ensures Marked(llm[..n], marks[..n])
  {
    forall i | 0 <= i < n ensures TidyAt(llm[..n], i) <==> TidyAt(llm, i) {
      assert llm[..n][..i] == llm[..i];
    }
  }

  lemma {:induction false} MarkedNext(llm: seq<Message>, marks: seq<bool>, m: Message, mark: bool)
    requires Marked(llm, marks) && (mark <==> m.Tool? ==> m.id in Owed(llm))
    ensures Marked(llm + [m], marks + [mark])
  {
    var all := llm + [m];
    assert all[..|llm|] == llm;
    forall i | 0 <= i < |llm| ensures TidyAt(all, i) <==> TidyAt(llm, i) {
      assert all[..i] == llm[..i];
    }
  }

  lemma {:induction false} MarkedMeans(llm: seq<Message>, marks: seq<bool>)
    requires Marked(llm, marks)
    ensures Tidy(llm) <==> AllTrue(marks)
  {
    if llm != [] {
      var n := |llm| - 1;
      assert llm[..n] == Front(llm);
      MarkedPrefix(llm, marks, n);
      MarkedMeans(Front(llm), marks[..n]);
      assert marks == marks[..n] + [marks[n]];
    }
  }

  /** A transcript that is tidy, with every mark set. */
  function AllSet(n: nat): seq<bool> {
    seq(n, _ => true)
  }

  lemma {:induction false} TidyIsMarked(llm: seq<Message>)
    requires Tidy(llm)
    ensures Marked(llm, AllSet(|llm|))
  {
    if llm != [] {
      TidyIsMarked(Front(llm));
      assert llm == Front(llm) + [Last(llm)];
      assert AllSet(|llm|) == AllSet(|llm| - 1) + [true];
      MarkedNext(Front(llm), AllSet(|llm| - 1), Last(llm), true);
    }
  }

  /** What a step does to the marks: a result is marked by whether its call is open, and a rewind
      takes marks off with the messages. */
  ghost function MarksNext(c: Chat, marks: seq<bool>, e: Event): seq<bool>
    requires Allowed(c, e)
  {
    match e
    case Send(_, _, _) => marks + [true]
    case Force(_, _, _, _) => marks + [true] + [true]
    case Reply(_, _, _, _) => marks + [true]
    case Result(callId, _, _) => marks + [callId in Owed(c.sess.llm)]
    case Load => if c.sess.Waiting() then marks else marks + AllSet(|Missing(c.sess.llm)|)
    case Rewind(_) =>
      var n := |Body(Apply(c, e).sess.llm)|;
      if n <= |marks| then marks[..n] else marks
    case _ => marks
  }

  ghost function Marks(c: Chat, es: seq<Event>): seq<bool>
    requires Legal(c, es)
  {
    if es == [] then AllSet(|Body(c.sess.llm)|)
    else MarksNext(RunAll(c, Front(es)), Marks(c, Front(es)), Last(es))
  }

  lemma {:induction false} BodyNext(llm: seq<Message>, marks: seq<bool>, m: Message, mark: bool)
    requires Marked(Body(llm), marks) && !m.System? && (mark <==> m.Tool? ==> m.id in Owed(llm))
    ensures Marked(Body(llm + [m]), marks + [mark])
  {
    BodyAppend(llm, m);
    BodyCounts(llm);
    MarkedNext(Body(llm), marks, m, mark);
  }

  lemma {:induction false} MarkedBackfill(llm: seq<Message>, marks: seq<bool>, calls: seq<ToolCall>)
    requires Marked(Body(llm), marks) && Distinct(Ids(calls)) && forall c | c in calls :: c.id in Owed(llm)
    ensures Marked(Body(llm + Backfill(calls)), marks + AllSet(|calls|))
  {
    if calls == [] {
      assert llm + Backfill(calls) == llm && marks + AllSet(0) == marks;
    } else {
      var most, last := Front(calls), Last(calls);
      assert last in calls && forall c | c in most :: c in calls;
      assert Ids(calls) == Ids(most) + [last.id];
      DistinctFront(Ids(calls));
      MarkedBackfill(llm, marks, most);
      BackfillOnto(llm, most);
      assert llm + Backfill(calls) == (llm + Backfill(most)) + [Tool(last.id, BACKFILL)];
      assert marks + AllSet(|calls|) == marks + AllSet(|most|) + [true];
      BodyNext(llm + Backfill(most), marks + AllSet(|most|), Tool(last.id, BACKFILL), true);
    }
  }

  lemma {:induction false} MarkedLoad(c: Chat, marks: seq<bool>)
    requires AllNamed(c.sess.llm) && Allowed(c, Load) && Marked(Body(c.sess.llm), marks)
    ensures Marked(Body(Apply(c, Load).sess.llm), MarksNext(c, marks, Load))
  {
    if !c.sess.Waiting() {
      LastCallsNamed(c.sess.llm);
      MissingIsOwed(c.sess.llm);
      MarkedBackfill(c.sess.llm, marks, Missing(c.sess.llm));
    }
  }

  lemma {:induction false} MarkedTurn(c: Chat, marks: seq<bool>, e: Event)
    requires Allowed(c, e) && Marked(Body(c.sess.llm), marks) && (e.Send? || e.Force?)
    ensures Marked(Body(Apply(c, e).sess.llm), MarksNext(c, marks, e))
  {
    var sys := SetSystem(c.sess.llm, e.prompt);
    BodySystem(c.sess.llm, e.prompt);
    BodyNext(sys, marks, User(e.content), true);
    if e.Force? {
      BodyNext(sys + [User(e.content)], marks + [true], Assistant("", [e.tc]), true);
    }
  }

  lemma {:induction false} MarkedCut(llm: seq<Message>, marks: seq<bool>, n: nat)
    requires Marked(Body(llm), marks) && n <= |llm|
    ensures |Body(llm[..n])| <= |marks| && Marked(Body(llm[..n]), marks[..|Body(llm[..n])|])
  {
    var left := Body(llm[..n]);
    BodyPrefix(llm, n);
    assert left == Body(llm)[..|left|];
    MarkedPrefix(Body(llm), marks, |left|);
  }

  lemma {:induction false} MarkedStep(c: Chat, marks: seq<bool>, e: Event)
    requires AllNamed(c.sess.llm) && Allowed(c, e) && Marked(Body(c.sess.llm), marks)
    ensures Marked(Body(Apply(c, e).sess.llm), MarksNext(c, marks, e))
  {
    var llm := c.sess.llm;
    if e.Send? || e.Force? {
      MarkedTurn(c, marks, e);
    } else if e.Rewind? {
      MarkedCut(llm, marks, |Apply(c, e).sess.llm|);
    } else if e.Result? {
      BodyNext(llm, marks, Tool(e.callId, e.text), e.callId in Owed(llm));
    } else if e.Load? {
      MarkedLoad(c, marks);
    } else if e.Reply? {
      BodyNext(llm, marks, Assistant(e.content, e.calls), true);
    }
  }

  lemma {:induction false} AlwaysMarked(c: Chat, es: seq<Event>)
    requires Tidy(c.sess.llm) && AllNamed(c.sess.llm) && Legal(c, es) && forall e | e in es :: NamesCalls(e)
    ensures AllNamed(RunAll(c, es).sess.llm) && Marked(Body(RunAll(c, es).sess.llm), Marks(c, es))
  {
    if es == [] {
      BodyCounts(c.sess.llm);
      TidyIsMarked(Body(c.sess.llm));
    } else {
      assert Last(es) in es && forall e | e in Front(es) :: e in es;
      AlwaysMarked(c, Front(es));
      NamedStep(RunAll(c, Front(es)), Last(es));
      MarkedStep(RunAll(c, Front(es)), Marks(c, Front(es)), Last(es));
    }
  }

  /** The exact condition in every run, rewinds and all: each result that came late has been cut
      off again. */
  lemma {:induction false} TidyIffCutOff(c: Chat, es: seq<Event>)
    requires Tidy(c.sess.llm) && AllNamed(c.sess.llm) && Legal(c, es) && forall e | e in es :: NamesCalls(e)
    ensures Tidy(RunAll(c, es).sess.llm) <==> AllTrue(Marks(c, es))
  {
    AlwaysMarked(c, es);
    BodyCounts(RunAll(c, es).sess.llm);
    MarkedMeans(Body(RunAll(c, es).sess.llm), Marks(c, es));
  }
}
