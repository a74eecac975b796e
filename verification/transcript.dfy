/** The transcript a session sends to the provider, and the provider's rule about it:
    every tool call of an assistant message is answered by a tool message before the
    next user or assistant message.

    The rule is stated twice.  `Complete` says it directly, by positions.  `Fine` and
    `Owed` say it as a left-to-right account, which is what the step proofs use.
    `CompleteIff` connects the two. */
module Transcript {
  import opened Common

  datatype ToolCall = ToolCall(id: string, name: string, arguments: string)

  datatype Message =
    | System(content: string)
    | User(content: string)
    | Assistant(content: string, calls: seq<ToolCall>)
    | Tool(id: string, content: string)
  {
    /** A message that ends the previous turn. */
    predicate Speaks() {
      User? || Assistant?
    }
  }

  function Ids(calls: seq<ToolCall>): seq<string> {
    seq(|calls|, i requires 0 <= i < |calls| => calls[i].id)
  }

  function IdSet(calls: seq<ToolCall>): set<string> {
    set c | c in calls :: c.id
  }

  /** The tool calls of the last user or assistant message. */
  function LastCalls(llm: seq<Message>): seq<ToolCall> {
    if llm == [] then []
    else if Last(llm).Assistant? then Last(llm).calls
    else if Last(llm).User? then []
    else LastCalls(Front(llm))
  }

  /** The ids of the tool messages after the last user or assistant message, in order. */
  function TailResults(llm: seq<Message>): seq<string> {
    if llm == [] || Last(llm).Speaks() then []
    else if Last(llm).Tool? then TailResults(Front(llm)) + [Last(llm).id]
    else TailResults(Front(llm))
  }

  /** The ids the last turn still owes an answer. */
  ghost function Owed(llm: seq<Message>): set<string> {
    set id | id in IdSet(LastCalls(llm)) && id !in TailResults(llm)
  }

  /** No turn was left behind with a call unanswered. */
  ghost predicate Fine(llm: seq<Message>) {
    llm != [] ==> Fine(Front(llm)) && (Last(llm).Speaks() ==> Owed(Front(llm)) == {})
  }

  // ---------- The provider's rule, by positions ----------

  ghost predicate AnsweredAt(llm: seq<Message>, i: nat, id: string, j: nat) {
    i < j < |llm| && llm[j].Tool? && llm[j].id == id && forall k | i < k < j :: !llm[k].Speaks()
  }

  ghost predicate Answered(llm: seq<Message>, i: nat, id: string) {
    exists j: nat :: AnsweredAt(llm, i, id, j)
  }

  ghost predicate Complete(llm: seq<Message>) {
    forall i, c | 0 <= i < |llm| && llm[i].Assistant? && c in llm[i].calls :: Answered(llm, i, c.id)
  }

  function LastSpeaker(llm: seq<Message>): (s: int)
    ensures -1 <= s < |llm|
    ensures 0 <= s ==> llm[s].Speaks()
    ensures forall k | s < k < |llm| :: !llm[k].Speaks()
  {
    if llm == [] then -1
    else if Last(llm).Speaks() then |llm| - 1
    else LastSpeaker(Front(llm))
  }

  lemma {:induction false} AnsweredByPrefix(llm: seq<Message>, i: nat, id: string)
    requires i < |llm| - 1
    ensures Answered(llm, i, id) <==>
            Answered(Front(llm), i, id)
            || (Last(llm).Tool? && Last(llm).id == id && LastSpeaker(Front(llm)) <= i)
  {
    var p := Front(llm);
    if Answered(llm, i, id) {
      var j: nat :| AnsweredAt(llm, i, id, j);
      if j < |p| {
        assert AnsweredAt(p, i, id, j);
      } else {
        assert forall k | i < k < |p| :: p[k] == llm[k];
      }
    }
    if Answered(p, i, id) {
      var j: nat :| AnsweredAt(p, i, id, j);
      assert AnsweredAt(llm, i, id, j);
    }
    if Last(llm).Tool? && Last(llm).id == id && LastSpeaker(p) <= i {
      assert AnsweredAt(llm, i, id, |llm| - 1);
    }
  }

  /** `Owed` is what the last turn has not been answered, by positions. */
  lemma {:induction false} OwedMeans(llm: seq<Message>)
    ensures var s := LastSpeaker(llm);
            LastCalls(llm) == (if s >= 0 && llm[s].Assistant? then llm[s].calls else [])
            && (s >= 0 ==> forall id :: id in TailResults(llm) <==> Answered(llm, s, id))
  {
    if llm != [] {
      var p := Front(llm);
      OwedMeans(p);
      var s := LastSpeaker(llm);
      if s >= 0 {
        forall id ensures id in TailResults(llm) <==> Answered(llm, s, id) {
          if s < |llm| - 1 {
            AnsweredByPrefix(llm, s, id);
          }
        }
      }
    }
  }

  /** `Fine` is the provider's rule for every turn but the last. */
  lemma {:induction false} FineMeans(llm: seq<Message>)
    ensures Fine(llm) <==>
            forall i, c | 0 <= i < LastSpeaker(llm) && llm[i].Assistant? && c in llm[i].calls ::
              Answered(llm, i, c.id)
  {
    if llm != [] {
      var p := Front(llm);
      FineMeans(p);
      OwedMeans(p);
      forall i, c | 0 <= i < |p| && llm[i].Assistant? && c in llm[i].calls && (i < LastSpeaker(p) || Last(llm).Speaks())
        ensures Answered(llm, i, c.id) <==> Answered(p, i, c.id)
      {
        AnsweredByPrefix(llm, i, c.id);
      }
      if Fine(llm) {
        forall i, c | 0 <= i < LastSpeaker(llm) && llm[i].Assistant? && c in llm[i].calls
          ensures Answered(llm, i, c.id)
        {
          if i == LastSpeaker(p) {
            assert c.id in IdSet(LastCalls(p));
            assert c.id !in Owed(p);
          } else {
            assert i < LastSpeaker(p);
            assert p[i] == llm[i];
          }
        }
      } else if Fine(p) {
        var id :| id in Owed(p);
        var c :| c in LastCalls(p) && c.id == id;
        assert llm[LastSpeaker(p)] == p[LastSpeaker(p)];
      } else {
        var i, c :| 0 <= i < LastSpeaker(p) && p[i].Assistant? && c in p[i].calls && !Answered(p, i, c.id);
        assert llm[i] == p[i];
      }
    }
  }

  /** The account and the provider's rule agree. */
  lemma {:induction false} CompleteIff(llm: seq<Message>)
    ensures Complete(llm) <==> Fine(llm) && Owed(llm) == {}
  {
    FineMeans(llm);
    OwedMeans(llm);
    var s := LastSpeaker(llm);
    if Fine(llm) && Owed(llm) == {} {
      forall i, c | 0 <= i < |llm| && llm[i].Assistant? && c in llm[i].calls
        ensures Answered(llm, i, c.id)
      {
        assert llm[i].Speaks();
        if i == s {
          assert c.id in IdSet(LastCalls(llm));
          assert c.id !in Owed(llm);
        }
      }
    }
    if Complete(llm) && s >= 0 {
      forall c | c in LastCalls(llm) ensures c.id !in Owed(llm) {
        assert Answered(llm, s, c.id);
      }
    }
  }

  // ---------- How the account moves ----------

  /** Appending a user or assistant message keeps the rule exactly when nothing is owed. */
  lemma {:induction false} AppendSpeaker(llm: seq<Message>, m: Message)
    requires m.Speaks()
    ensures Fine(llm + [m]) <==> Complete(llm)
    ensures LastCalls(llm + [m]) == (if m.Assistant? then m.calls else [])
    ensures TailResults(llm + [m]) == []
  {
    assert Front(llm + [m]) == llm;
    CompleteIff(llm);
  }

  /** A tool message, from whichever thread and however late, never breaks the rule. */
  lemma {:induction false} AppendTool(llm: seq<Message>, id: string, content: string)
    ensures Fine(llm + [Tool(id, content)]) <==> Fine(llm)
    ensures LastCalls(llm + [Tool(id, content)]) == LastCalls(llm)
    ensures TailResults(llm + [Tool(id, content)]) == TailResults(llm) + [id]
    ensures Owed(llm + [Tool(id, content)]) == Owed(llm) - {id}
  {
    assert Front(llm + [Tool(id, content)]) == llm;
  }

  lemma {:induction false} FinePrefix(llm: seq<Message>, n: nat)
    requires Fine(llm) && n <= |llm|
    ensures Fine(llm[..n])
  {
    if n < |llm| {
      FinePrefix(Front(llm), n);
      assert Front(llm)[..n] == llm[..n];
    } else {
      assert llm[..n] == llm;
    }
  }

  /** Cutting a transcript right before one of its turns leaves nothing owed. */
  lemma {:induction false} CutIsComplete(llm: seq<Message>, n: nat)
    requires Fine(llm) && n < |llm| && llm[n].Speaks()
    ensures Complete(llm[..n])
  {
    FinePrefix(llm, n + 1);
    assert Front(llm[..n + 1]) == llm[..n];
    CompleteIff(llm[..n]);
  }

  // ---------- The backfill ----------

  const BACKFILL := "Tool call did not complete."

  /** The calls, in order, that the tail has not answered.  A call with an empty id is
      never counted as answered. */
  function Unanswered(calls: seq<ToolCall>, answered: seq<string>): seq<ToolCall> {
    if calls == [] then []
    else (if calls[0].id != "" && calls[0].id in answered then [] else [calls[0]])
         + Unanswered(calls[1..], answered)
  }

  function Missing(llm: seq<Message>): seq<ToolCall> {
    Unanswered(LastCalls(llm), TailResults(llm))
  }

  function Backfill(calls: seq<ToolCall>): seq<Message> {
    seq(|calls|, i requires 0 <= i < |calls| => Tool(calls[i].id, BACKFILL))
  }

  function EnsureComplete(llm: seq<Message>): seq<Message> {
    llm + Backfill(Missing(llm))
  }

  /** The calls to backfill keep their order, each judged by itself, and say what became of them. */
  lemma {:induction false} BackfillInOrder(a: seq<ToolCall>, c: ToolCall, b: seq<ToolCall>, answered: seq<string>)
    ensures Unanswered(a + [c] + b, answered)
         == Unanswered(a, answered) + (if c.id != "" && c.id in answered then [] else [c]) + Unanswered(b, answered)
    ensures Backfill([c]) == [Tool(c.id, "Tool call did not complete.")]
  {
    UnansweredConcat(a + [c], b, answered);
    UnansweredConcat(a, [c], answered);
    assert [c][1..] == [];
  }

  lemma {:induction false} UnansweredMembers(calls: seq<ToolCall>, answered: seq<string>, c: ToolCall)
    ensures c in Unanswered(calls, answered) <==> c in calls && (c.id == "" || c.id !in answered)
  {
    if calls != [] {
      UnansweredMembers(calls[1..], answered, c);
    }
  }

  lemma {:induction false} NothingUnanswered(calls: seq<ToolCall>, answered: seq<string>)
    ensures Unanswered(calls, answered) == [] <==> forall c | c in calls :: c.id != "" && c.id in answered
  {
    if calls != [] {
      NothingUnanswered(calls[1..], answered);
      assert calls == [calls[0]] + calls[1..];
    }
  }

  lemma {:induction false} UnansweredConcat(a: seq<ToolCall>, b: seq<ToolCall>, answered: seq<string>)
    ensures Unanswered(a + b, answered) == Unanswered(a, answered) + Unanswered(b, answered)
  {
    if a == [] {
      assert a + b == b;
    } else {
      assert (a + b)[1..] == a[1..] + b;
      UnansweredConcat(a[1..], b, answered);
    }
  }

  lemma {:induction false} BackfillOnto(llm: seq<Message>, calls: seq<ToolCall>)
    ensures Fine(llm + Backfill(calls)) <==> Fine(llm)
    ensures LastCalls(llm + Backfill(calls)) == LastCalls(llm)
    ensures TailResults(llm + Backfill(calls)) == TailResults(llm) + Ids(calls)
  {
    if calls == [] {
      assert llm + Backfill(calls) == llm;
    } else {
      var most := Front(calls);
      BackfillOnto(llm, most);
      assert llm + Backfill(calls) == (llm + Backfill(most)) + [Tool(Last(calls).id, BACKFILL)];
      AppendTool(llm + Backfill(most), Last(calls).id, BACKFILL);
      assert Ids(calls) == Ids(most) + [Last(calls).id];
    }
  }

  /** The backfill settles the last turn and touches no other: the request built from it
      obeys the provider's rule exactly when no earlier turn was left behind. */
  lemma {:induction false} EnsureCompletes(llm: seq<Message>)
    ensures Owed(EnsureComplete(llm)) == {}
    ensures Complete(EnsureComplete(llm)) <==> Fine(llm)
  {
    BackfillOnto(llm, Missing(llm));
    CompleteIff(EnsureComplete(llm));
    forall c | c in LastCalls(llm)
      ensures c.id in TailResults(llm) + Ids(Missing(llm))
    {
      UnansweredMembers(LastCalls(llm), TailResults(llm), c);
      if c in Missing(llm) {
        var k :| 0 <= k < |Missing(llm)| && Missing(llm)[k] == c;
        assert Ids(Missing(llm))[k] == c.id;
      }
    }
  }

  /** It adds nothing when nothing is missing, and what it adds is exactly what is owed. */
  lemma {:induction false} EnsureAddsExactlyOwed(llm: seq<Message>)
    ensures forall id | id != "" :: id in Ids(Missing(llm)) <==> id in Owed(llm)
    ensures Missing(llm) == [] ==> EnsureComplete(llm) == llm
  {
    forall id | id != "" ensures id in Ids(Missing(llm)) <==> id in Owed(llm) {
      if id in Ids(Missing(llm)) {
        var k :| 0 <= k < |Missing(llm)| && Ids(Missing(llm))[k] == id;
        UnansweredMembers(LastCalls(llm), TailResults(llm), Missing(llm)[k]);
      }
      if id in Owed(llm) {
        var c :| c in LastCalls(llm) && c.id == id;
        UnansweredMembers(LastCalls(llm), TailResults(llm), c);
        var k :| 0 <= k < |Missing(llm)| && Missing(llm)[k] == c;
        assert Ids(Missing(llm))[k] == id;
      }
    }
  }

  /** Running it twice adds nothing more, exactly when no call of the last turn has an
      empty id: such a call is backfilled again every time. */
  lemma {:induction false} EnsureIdempotentIff(llm: seq<Message>)
    ensures EnsureComplete(EnsureComplete(llm)) == EnsureComplete(llm) <==> "" !in IdSet(LastCalls(llm))
  {
    BackfillOnto(llm, Missing(llm));
    EnsureCompletes(llm);
    var once := EnsureComplete(llm);
    forall c | c in LastCalls(once) ensures c.id in TailResults(once) {
      assert c.id in IdSet(LastCalls(once)) && c.id !in Owed(once);
    }
    if "" in IdSet(LastCalls(llm)) {
      var c :| c in LastCalls(llm) && c.id == "";
      UnansweredMembers(LastCalls(once), TailResults(once), c);
      assert |EnsureComplete(once)| > |once|;
    } else {
      NothingUnanswered(LastCalls(once), TailResults(once));
      assert EnsureComplete(once) == once;
    }
  }
}
