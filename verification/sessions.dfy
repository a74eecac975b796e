/** A chat session's two transcripts -- the one the user sees and the one the provider
    gets -- its waiting approvals and questions, and the tool calls queued behind a pause.
    Each function here is the effect of one section the manager runs under its lock. */
module Sessions {
  import opened Common
  import opened Transcript

  datatype Role = UserRole | AssistantRole | ToolRole

  /** The result of a call the user declined. */
  const DECLINED := "User declined this tool call."

  /** A row of the transcript the user sees. */
  datatype Entry = Entry(id: string, role: Role, content: string, status: string, toolCallId: string, output: string)

  /** An approval or a question waiting for the user, with the tool call it pauses. */
  datatype Pending = Pending(id: string, call: ToolCall)

  datatype Session = Session(
    messages: seq<Entry>,
    llm: seq<Message>,
    approvals: seq<Pending>,
    questions: seq<Pending>,
    queue: seq<ToolCall>)
  {
    predicate Waiting() {
      approvals != [] || questions != []
    }
  }

  // ---------- User turns ----------

  /** What the user said, in order, as the display transcript has it. */
  function EntryTurns(messages: seq<Entry>): seq<string> {
    if messages == [] then []
    else if Last(messages).role.UserRole? then EntryTurns(Front(messages)) + [Last(messages).content]
    else EntryTurns(Front(messages))
  }

  /** What the user said, in order, as the provider's transcript has it. */
  function MessageTurns(llm: seq<Message>): seq<string> {
    if llm == [] then []
    else if Last(llm).User? then MessageTurns(Front(llm)) + [Last(llm).content]
    else MessageTurns(Front(llm))
  }

  predicate Aligned(s: Session) {
    EntryTurns(s.messages) == MessageTurns(s.llm)
  }

  lemma {:induction false} EntryAppend(messages: seq<Entry>, e: Entry)
    ensures EntryTurns(messages + [e])
         == EntryTurns(messages) + (if e.role.UserRole? then [e.content] else [])
  {
    assert Front(messages + [e]) == messages;
  }

  lemma {:induction false} MessageAppend(llm: seq<Message>, m: Message)
    ensures MessageTurns(llm + [m]) == MessageTurns(llm) + (if m.User? then [m.content] else [])
  {
    assert Front(llm + [m]) == llm;
  }

  lemma {:induction false} MessageBackfill(llm: seq<Message>, calls: seq<ToolCall>)
    ensures MessageTurns(llm + Backfill(calls)) == MessageTurns(llm)
  {
    if calls == [] {
      assert llm + Backfill(calls) == llm;
    } else {
      MessageBackfill(llm, Front(calls));
      assert llm + Backfill(calls) == (llm + Backfill(Front(calls))) + [Tool(Last(calls).id, BACKFILL)];
      MessageAppend(llm + Backfill(Front(calls)), Tool(Last(calls).id, BACKFILL));
    }
  }

  // ---------- Sections ----------

  /** Sets the system prompt, adding one in front when the transcript has none. */
  function SetSystem(llm: seq<Message>, prompt: string): seq<Message> {
    if llm != [] && llm[0].System? then llm[0 := System(prompt)] else [System(prompt)] + llm
  }

  /** The system prompt is no part of any turn. */
  lemma {:induction false} SetSystemKeeps(llm: seq<Message>, prompt: string)
    ensures LastCalls(SetSystem(llm, prompt)) == LastCalls(llm)
    ensures TailResults(SetSystem(llm, prompt)) == TailResults(llm)
    ensures Fine(SetSystem(llm, prompt)) <==> Fine(llm)
    ensures MessageTurns(SetSystem(llm, prompt)) == MessageTurns(llm)
  {
    var r := SetSystem(llm, prompt);
    if llm == [] {
      assert Front(r) == [];
    } else {
      var p := Front(llm);
      SetSystemKeeps(p, prompt);
      if p == [] {
        assert Front([System(prompt)]) == [];
        if llm[0].System? {
          assert r == [System(prompt)];
        } else {
          assert Front(r) == SetSystem(p, prompt);
        }
      } else {
        assert Front(r) == SetSystem(p, prompt);
        assert Last(r) == Last(llm);
      }
    }
  }

  function SendUser(s: Session, id: string, content: string, prompt: string): Session {
    s.(messages := s.messages + [Entry(id, UserRole, content, "completed", "", "")],
       llm := SetSystem(s.llm, prompt) + [User(content)])
  }

  /** A forced workflow speaks for the user and for the assistant, in both transcripts. */
  function ForceCall(s: Session, id: string, content: string, prompt: string, tc: ToolCall): Session {
    s.(messages := s.messages + [Entry(id, UserRole, content, "completed", "", "")],
       llm := SetSystem(s.llm, prompt) + [User(content)] + [Assistant("", [tc])])
  }

  /** A user turn keeps the provider's rule exactly when nothing is owed before it. */
  lemma {:induction false} SendKeepsRuleIff(s: Session, id: string, content: string, prompt: string)
    ensures Fine(SendUser(s, id, content, prompt).llm) <==> Complete(s.llm)
    ensures LastCalls(SendUser(s, id, content, prompt).llm) == []
    ensures MessageTurns(SendUser(s, id, content, prompt).llm) == MessageTurns(s.llm) + [content]
  {
    var sys := SetSystem(s.llm, prompt);
    SetSystemKeeps(s.llm, prompt);
    CompleteIff(s.llm);
    CompleteIff(sys);
    AppendSpeaker(sys, User(content));
    MessageAppend(sys, User(content));
  }

  lemma {:induction false} ForceKeepsRuleIff(s: Session, id: string, content: string, prompt: string, tc: ToolCall)
    ensures Fine(ForceCall(s, id, content, prompt, tc).llm) <==> Complete(s.llm)
    ensures LastCalls(ForceCall(s, id, content, prompt, tc).llm) == [tc]
    ensures Owed(ForceCall(s, id, content, prompt, tc).llm) == {tc.id}
    ensures MessageTurns(ForceCall(s, id, content, prompt, tc).llm) == MessageTurns(s.llm) + [content]
  {
    SendKeepsRuleIff(s, id, content, prompt);
    var said := SendUser(s, id, content, prompt).llm;
    CompleteIff(said);
    AppendSpeaker(said, Assistant("", [tc]));
    MessageAppend(said, Assistant("", [tc]));
  }

  function AddAssistant(s: Session, id: string, content: string, shown: bool, calls: seq<ToolCall>): Session {
    s.(messages := if shown then s.messages + [Entry(id, AssistantRole, content, "completed", "", "")] else s.messages,
       llm := s.llm + [Assistant(content, calls)])
  }

  function AddEntry(s: Session, e: Entry): Session {
    s.(messages := s.messages + [e])
  }

  /** Fills in the result of the last row with this tool call id. */
  function Fill(messages: seq<Entry>, callId: string, result: string, status: string): (r: seq<Entry>)
    ensures |r| == |messages|
  {
    if messages == [] then []
    else if Last(messages).toolCallId == callId then
      Front(messages) + [Last(messages).(output := result, status := status)]
    else Fill(Front(messages), callId, result, status) + [Last(messages)]
  }

  function AnswerCall(s: Session, callId: string, result: string, status: string): Session {
    s.(llm := s.llm + [Tool(callId, result)], messages := Fill(s.messages, callId, result, status))
  }

  /** The newest row of a call. */
  predicate IsNewest(messages: seq<Entry>, callId: string, i: nat) {
    && i < |messages| && messages[i].toolCallId == callId
    && forall j | i < j < |messages| :: messages[j].toolCallId != callId
  }

  /** A result goes to the newest row of its call, with its text and status, and to no other. */
  lemma {:induction false} FillsTheNewest(messages: seq<Entry>, callId: string, result: string, status: string, i: nat)
    requires i < |messages|
    ensures Fill(messages, callId, result, status)[i]
         == if IsNewest(messages, callId, i) then messages[i].(output := result, status := status) else messages[i]
  {
    if Last(messages).toolCallId != callId && i < |messages| - 1 {
      FillsTheNewest(Front(messages), callId, result, status, i);
      assert IsNewest(messages, callId, i) <==> IsNewest(Front(messages), callId, i);
    }
  }

  lemma {:induction false} FillKeepsTurns(messages: seq<Entry>, callId: string, result: string, status: string)
    ensures EntryTurns(Fill(messages, callId, result, status)) == EntryTurns(messages)
  {
    if messages != [] {
      var r := Fill(messages, callId, result, status);
      if Last(messages).toolCallId == callId {
        assert Front(r) == Front(messages);
      } else {
        assert Front(r) == Fill(Front(messages), callId, result, status);
        FillKeepsTurns(Front(messages), callId, result, status);
      }
    }
  }

  // ---------- Rewinding ----------

  /** The first user row with this id at or after `from`, or the length when there is none. */
  function FindUser(messages: seq<Entry>, messageId: string, from: nat): (i: nat)
    requires from <= |messages|
    ensures from <= i <= |messages|
    ensures i < |messages| ==> messages[i].role.UserRole? && messages[i].id == messageId
    ensures forall k | from <= k < i :: !(messages[k].role.UserRole? && messages[k].id == messageId)
    decreases |messages| - from
  {
    if from == |messages| || (messages[from].role.UserRole? && messages[from].id == messageId) then from
    else FindUser(messages, messageId, from + 1)
  }

  /** The position of the n-th user turn, or the length when there are fewer. */
  function NthUser(llm: seq<Message>, n: nat): (i: nat)
    requires n >= 1
    ensures i <= |llm|
    ensures i < |llm| ==> llm[i].User? && |MessageTurns(llm[..i])| == n - 1
    ensures i == |llm| ==> |MessageTurns(llm)| < n
  {
    if llm == [] then 0
    else
      var p := Front(llm);
      var i := NthUser(p, n);
      if i < |p| then
        assert p[..i] == llm[..i];
        i
      else if Last(llm).User? && |MessageTurns(p)| == n - 1 then |llm| - 1
      else |llm|
  }

  /** Which user turn row `i` is, counting from one. */
  function Ordinal(messages: seq<Entry>, i: nat): (n: nat)
    requires i < |messages| && messages[i].role.UserRole?
    ensures n == |EntryTurns(messages[..i])| + 1
  {
    EntryAppend(messages[..i], messages[i]);
    assert messages[..i + 1] == messages[..i] + [messages[i]];
    |EntryTurns(messages[..i + 1])|
  }

  /** What a rewind to user row `i` leaves.  The queue is not cleared. */
  function RewindTo(s: Session, i: nat): Session
    requires i < |s.messages| && s.messages[i].role.UserRole?
  {
    s.(messages := s.messages[..i], llm := s.llm[..NthUser(s.llm, Ordinal(s.messages, i))],
       approvals := [], questions := [])
  }

  lemma {:induction false} EntryTurnsSplit(messages: seq<Entry>, i: nat)
    requires i <= |messages|
    ensures EntryTurns(messages[..i]) <= EntryTurns(messages)
    ensures i < |messages| && messages[i].role.UserRole? ==>
              |EntryTurns(messages[..i])| < |EntryTurns(messages)|
              && EntryTurns(messages)[|EntryTurns(messages[..i])|] == messages[i].content
  {
    if i == |messages| {
      assert messages[..i] == messages;
    } else {
      EntryTurnsSplit(Front(messages), i);
      assert Front(messages)[..i] == messages[..i];
    }
  }

  lemma {:induction false} MessageTurnsSplit(llm: seq<Message>, i: nat)
    requires i <= |llm|
    ensures MessageTurns(llm[..i]) <= MessageTurns(llm)
    ensures i < |llm| && llm[i].User? ==>
              |MessageTurns(llm[..i])| < |MessageTurns(llm)|
              && MessageTurns(llm)[|MessageTurns(llm[..i])|] == llm[i].content
  {
    if i == |llm| {
      assert llm[..i] == llm;
    } else {
      MessageTurnsSplit(Front(llm), i);
      assert Front(llm)[..i] == llm[..i];
    }
  }

  /** Between aligned transcripts the ordinal search always finds its cut, the cut is the
      same user turn in both, both prefixes hold the same user turns, and what is left
      owes nothing. */
  lemma {:induction false} RewindFindsItsCut(s: Session, i: nat)
    requires Aligned(s) && i < |s.messages| && s.messages[i].role.UserRole?
    ensures var cut := NthUser(s.llm, Ordinal(s.messages, i));
            cut < |s.llm| && s.llm[cut] == User(s.messages[i].content)
    ensures Aligned(RewindTo(s, i))
    ensures EntryTurns(RewindTo(s, i).messages) + [s.messages[i].content] <= EntryTurns(s.messages)
    ensures Fine(s.llm) ==> Complete(RewindTo(s, i).llm)
  {
    var n := Ordinal(s.messages, i);
    var cut := NthUser(s.llm, n);
    EntryTurnsSplit(s.messages, i);
    MessageTurnsSplit(s.llm, cut);
    if Fine(s.llm) {
      CutIsComplete(s.llm, cut);
    }
  }
}
