/** What becomes of a queue from the pause to the take: the queue the answering thread takes up
    is the rest of the last turn exactly when, at the take, the turn it belongs to is still in
    the transcript and nobody has spoken after it.  Which is so is counted along the run: user
    turns, rounds and replies put messages over the turn, rewinds take them off again, or the
    turn with them. */
module Answers {
  import opened Common
  import opened Transcript
  import opened Sessions
  import opened Controls
  import opened Turns
  import Runs = ProviderRuns

  // ---------- The ids of a transcript ----------

  /** The ids of all calls in a transcript. */
  function AllIds(llm: seq<Message>): set<string> {
    if llm == [] then {}
    else AllIds(Front(llm)) + if Last(llm).Assistant? then IdSet(Last(llm).calls) else {}
  }

  /** No two turns share a call's id. */
  predicate IdsApart(llm: seq<Message>) {
    llm != [] ==>
      && IdsApart(Front(llm))
      && (Last(llm).Assistant? ==> IdSet(Last(llm).calls) !! AllIds(Front(llm)))
  }

  lemma {:induction false} IdsAppend(llm: seq<Message>, m: Message)
    ensures AllIds(llm + [m]) == AllIds(llm) + if m.Assistant? then IdSet(m.calls) else {}
    ensures IdsApart(llm + [m]) <==> IdsApart(llm) && (m.Assistant? ==> IdSet(m.calls) !! AllIds(llm))
  {
    assert Front(llm + [m]) == llm;
  }

  lemma {:induction false} IdsPrefix(llm: seq<Message>, n: nat)
    requires n <= |llm|
    ensures AllIds(llm[..n]) <= AllIds(llm)
    ensures IdsApart(llm) ==> IdsApart(llm[..n])
  {
    if n < |llm| {
      IdsPrefix(Front(llm), n);
      assert Front(llm)[..n] == llm[..n];
    } else {
      assert llm[..n] == llm;
    }
  }

  lemma {:induction false} IdsBackfill(llm: seq<Message>, calls: seq<ToolCall>)
    ensures AllIds(llm + Backfill(calls)) == AllIds(llm)
    ensures IdsApart(llm + Backfill(calls)) <==> IdsApart(llm)
  {
    if calls == [] {
      assert llm + Backfill(calls) == llm;
    } else {
      IdsBackfill(llm, Front(calls));
      assert llm + Backfill(calls) == (llm + Backfill(Front(calls))) + [Tool(Last(calls).id, BACKFILL)];
      IdsAppend(llm + Backfill(Front(calls)), Tool(Last(calls).id, BACKFILL));
    }
  }

  /** A system message in front has no calls. */
  lemma {:induction false} IdsBehindSystem(m: Message, rest: seq<Message>)
    requires m.System?
    ensures AllIds([m] + rest) == AllIds(rest) && (IdsApart([m] + rest) <==> IdsApart(rest))
  {
    if rest == [] {
      assert [m] + rest == [] + [m];
      IdsAppend([], m);
    } else {
      var most := Front(rest);
      IdsBehindSystem(m, most);
      assert [m] + rest == [m] + most + [Last(rest)];
      IdsAppend([m] + most, Last(rest));
      assert rest == most + [Last(rest)];
      IdsAppend(most, Last(rest));
    }
  }

  lemma {:induction false} IdsSystem(llm: seq<Message>, prompt: string)
    ensures AllIds(SetSystem(llm, prompt)) == AllIds(llm)
    ensures IdsApart(SetSystem(llm, prompt)) <==> IdsApart(llm)
  {
    if llm != [] && llm[0].System? {
      assert llm == [llm[0]] + llm[1..] && SetSystem(llm, prompt) == [System(prompt)] + llm[1..];
      IdsBehindSystem(llm[0], llm[1..]);
      IdsBehindSystem(System(prompt), llm[1..]);
    } else {
      IdsBehindSystem(System(prompt), llm);
    }
  }

  lemma {:induction false} LastCallsAreCalls(llm: seq<Message>, c: ToolCall)
    requires c in LastCalls(llm)
    ensures c.id in AllIds(llm)
  {
    if !Last(llm).Assistant? {
      LastCallsAreCalls(Front(llm), c);
    }
  }

  // ---------- Ids over a run ----------

  /** The transcript holds only ids that were given out, each in one turn. */
  ghost predicate Recorded(w: World) {
    AllIds(w.sess.llm) <= w.used && IdsApart(w.sess.llm)
  }

  /** Nothing or a tool message was appended. */
  predicate AtMostATool(before: seq<Message>, after: seq<Message>) {
    after == before || (|after| == |before| + 1 && Front(after) == before && Last(after).Tool?)
  }

  lemma {:induction false} ToolIds(before: seq<Message>, after: seq<Message>)
    requires AtMostATool(before, after)
    ensures AllIds(after) == AllIds(before) && (IdsApart(after) <==> IdsApart(before))
    ensures LastCalls(after) == LastCalls(before)
  {
  }

  lemma {:induction false} MoveAppends(w: World, m: Move)
    requires CanMove(w, m)
    ensures AtMostATool(w.sess.llm, ApplyMove(w, m).sess.llm)
  {
  }

  /** A step that says nothing new to the provider appends at most a result. */
  lemma {:induction false} QuietAppends(w: World, e: Event)
    requires Enabled(w, e)
    requires !e.Send? && !e.Force? && !e.Rewind? && !e.Load? && !e.Reply?
    ensures AtMostATool(w.sess.llm, Apply(w, e).sess.llm) && Apply(w, e).used == w.used
  {
    if e.Working? {
      MoveAppends(w, e.move);
    }
  }

  /** From one transcript to the next, every new id is one that was not given out before. */
  ghost predicate Fresh(before: seq<Message>, used: set<string>, after: seq<Message>, usedAfter: set<string>) {
    && used <= usedAfter && IdsApart(after)
    && AllIds(after) <= AllIds(before) + (usedAfter - used)
  }

  lemma {:induction false} SendFresh(s: Session, used: set<string>, id: string, content: string, prompt: string)
    requires IdsApart(s.llm)
    ensures Fresh(s.llm, used, SendUser(s, id, content, prompt).llm, used)
    ensures AllIds(SendUser(s, id, content, prompt).llm) == AllIds(s.llm)
  {
    IdsSystem(s.llm, prompt);
    IdsAppend(SetSystem(s.llm, prompt), User(content));
  }

  lemma {:induction false} ForceFresh(s: Session, used: set<string>, id: string, content: string, prompt: string,
                                      tc: ToolCall)
    requires IdsApart(s.llm) && AllIds(s.llm) <= used && tc.id !in used
    ensures Fresh(s.llm, used, ForceCall(s, id, content, prompt, tc).llm, used + {tc.id})
  {
    SendFresh(s, used, id, content, prompt);
    IdsAppend(SendUser(s, id, content, prompt).llm, Assistant("", [tc]));
    assert IdSet([tc]) == {tc.id};
  }

  lemma {:induction false} ReplyFresh(s: Session, used: set<string>, content: string, calls: seq<ToolCall>)
    requires IdsApart(s.llm) && AllIds(s.llm) <= used && used !! IdSet(calls)
    ensures Fresh(s.llm, used, s.llm + [Assistant(content, calls)], used + IdSet(calls))
  {
    IdsAppend(s.llm, Assistant(content, calls));
  }

  lemma {:induction false} StepFresh(w: World, e: Event)
    requires Recorded(w) && Enabled(w, e)
    ensures Fresh(w.sess.llm, w.used, Apply(w, e).sess.llm, Apply(w, e).used)
  {
    var llm := w.sess.llm;
    if e.Send? {
      SendFresh(w.sess, w.used, e.id, e.content, e.prompt);
    } else if e.Force? {
      ForceFresh(w.sess, w.used, e.id, e.content, e.prompt, e.tc);
    } else if e.Rewind? {
      IdsPrefix(llm, |Apply(w, e).sess.llm|);
    } else if e.Load? {
      IdsBackfill(llm, Missing(llm));
    } else if e.Reply? {
      ReplyFresh(w.sess, w.used, e.content, e.calls);
    } else {
      QuietAppends(w, e);
      ToolIds(llm, Apply(w, e).sess.llm);
    }
  }

  /** What a step does to the ids: those that come new were never given out before. */
  lemma {:induction false} IdsStep(w: World, e: Event)
    requires Recorded(w) && Enabled(w, e)
    ensures Recorded(Apply(w, e)) && w.used <= Apply(w, e).used
    ensures AllIds(Apply(w, e).sess.llm) <= AllIds(w.sess.llm) + (Apply(w, e).used - w.used)
  {
    StepFresh(w, e);
  }

  lemma {:induction false} AlwaysRecorded(w: World, es: seq<Event>)
    requires Recorded(w) && Legal(w, es)
    ensures Recorded(RunAll(w, es)) && w.used <= RunAll(w, es).used
  {
    if es != [] {
      AlwaysRecorded(w, Front(es));
      IdsStep(RunAll(w, Front(es)), Last(es));
    }
  }

  // ---------- Who has spoken ----------

  /** The user and assistant messages of a transcript. */
  function Said(llm: seq<Message>): seq<Message> {
    if llm == [] then []
    else if Last(llm).Speaks() then Said(Front(llm)) + [Last(llm)]
    else Said(Front(llm))
  }

  lemma {:induction false} SaidAppend(llm: seq<Message>, m: Message)
    ensures Said(llm + [m]) == Said(llm) + if m.Speaks() then [m] else []
  {
    assert Front(llm + [m]) == llm;
  }

  lemma {:induction false} SaidSpeaks(llm: seq<Message>)
    requires Said(llm) != []
    ensures Last(Said(llm)).Speaks()
  {
    if !Last(llm).Speaks() {
      SaidSpeaks(Front(llm));
    }
  }

  /** Calls and their ids are in what was said. */
  lemma {:induction false} SaidCalls(llm: seq<Message>)
    ensures LastCalls(Said(llm)) == LastCalls(llm) && AllIds(Said(llm)) == AllIds(llm)
    ensures IdsApart(Said(llm)) <==> IdsApart(llm)
  {
    if llm != [] {
      SaidCalls(Front(llm));
      assert llm == Front(llm) + [Last(llm)];
      IdsAppend(Front(llm), Last(llm));
      if Last(llm).Speaks() {
        IdsAppend(Said(Front(llm)), Last(llm));
      }
    }
  }

  lemma {:induction false} SaidPrefix(llm: seq<Message>, n: nat)
    requires n <= |llm|
    ensures Said(llm[..n]) <= Said(llm)
  {
    if n < |llm| {
      SaidPrefix(Front(llm), n);
      assert Front(llm)[..n] == llm[..n];
    } else {
      assert llm[..n] == llm;
    }
  }

  lemma {:induction false} SaidBehindSystem(m: Message, rest: seq<Message>)
    requires m.System?
    ensures Said([m] + rest) == Said(rest)
  {
    if rest == [] {
      assert [m] + rest == [] + [m];
      SaidAppend([], m);
    } else {
      SaidBehindSystem(m, Front(rest));
      assert [m] + rest == [m] + Front(rest) + [Last(rest)];
      SaidAppend([m] + Front(rest), Last(rest));
    }
  }

  lemma {:induction false} SaidSystem(llm: seq<Message>, prompt: string)
    ensures Said(SetSystem(llm, prompt)) == Said(llm)
  {
    if llm != [] && llm[0].System? {
      assert llm == [llm[0]] + llm[1..] && SetSystem(llm, prompt) == [System(prompt)] + llm[1..];
      SaidBehindSystem(llm[0], llm[1..]);
      SaidBehindSystem(System(prompt), llm[1..]);
    } else {
      SaidBehindSystem(System(prompt), llm);
    }
  }

  lemma {:induction false} SaidBackfill(llm: seq<Message>, calls: seq<ToolCall>)
    ensures Said(llm + Backfill(calls)) == Said(llm)
  {
    if calls == [] {
      assert llm + Backfill(calls) == llm;
    } else {
      SaidBackfill(llm, Front(calls));
      assert llm + Backfill(calls) == (llm + Backfill(Front(calls))) + [Tool(Last(calls).id, BACKFILL)];
      SaidAppend(llm + Backfill(Front(calls)), Tool(Last(calls).id, BACKFILL));
    }
  }

  /** How many messages a step puts over the last turn. */
  function Speaking(e: Event): nat {
    if e.Send? || e.Reply? then 1 else if e.Force? then 2 else 0
  }

  lemma {:induction false} SpeakersSay(s: Session, id: string, content: string, prompt: string, tc: ToolCall)
    ensures Said(SendUser(s, id, content, prompt).llm) == Said(s.llm) + [User(content)]
    ensures Said(ForceCall(s, id, content, prompt, tc).llm) == Said(s.llm) + [User(content), Assistant("", [tc])]
  {
    SaidSystem(s.llm, prompt);
    var said := SetSystem(s.llm, prompt) + [User(content)];
    SaidAppend(SetSystem(s.llm, prompt), User(content));
    SaidAppend(said, Assistant("", [tc]));
    assert Said(s.llm) + [User(content)] + [Assistant("", [tc])] == Said(s.llm) + [User(content), Assistant("", [tc])];
  }

  lemma {:induction false} SessionSpoken(v: World, e: Event)
    requires Enabled(v, e)
    ensures e.Send? ==> Apply(v, e).sess == SendUser(v.sess, e.id, e.content, e.prompt)
    ensures e.Force? ==> Apply(v, e).sess == ForceCall(v.sess, e.id, e.content, e.prompt, e.tc)
    ensures e.Reply? ==> Apply(v, e).sess == AddAssistant(v.sess, e.id, e.content, e.shown, e.calls)
    ensures e.Load? ==> Apply(v, e).sess.llm == v.sess.llm || Apply(v, e).sess.llm == EnsureComplete(v.sess.llm)
  {
  }

  lemma {:induction false} SaidStep(v: World, e: Event)
    requires Enabled(v, e)
    ensures var before, after := Said(v.sess.llm), Said(Apply(v, e).sess.llm);
            if e.Rewind? then after <= before else before <= after && |after| == |before| + Speaking(e)
  {
    var llm := v.sess.llm;
    SessionSpoken(v, e);
    if e.Send? {
      SpeakersSay(v.sess, e.id, e.content, e.prompt, ToolCall("", "", ""));
    } else if e.Force? {
      SpeakersSay(v.sess, e.id, e.content, e.prompt, e.tc);
    } else if e.Rewind? {
      RewindCuts(v, e);
      SaidPrefix(llm, |Apply(v, e).sess.llm|);
    } else if e.Load? {
      SaidBackfill(llm, Missing(llm));
    } else if e.Reply? {
      SaidAppend(llm, Assistant(e.content, e.calls));
    } else {
      QuietAppends(v, e);
      ToolSaid(llm, Apply(v, e).sess.llm);
    }
  }

  lemma {:induction false} RewindCuts(v: World, e: Event)
    requires Enabled(v, e) && e.Rewind?
    ensures Apply(v, e).sess.llm <= v.sess.llm
  {
  }

  lemma {:induction false} ToolSaid(before: seq<Message>, after: seq<Message>)
    requires AtMostATool(before, after)
    ensures Said(after) == Said(before)
  {
  }

  // ---------- From the answer to the take ----------

  predicate IsAnswer(e: Event) {
    e.Approve? || e.Decline? || e.Answer?
  }

  predicate NoAnswers(es: seq<Event>) {
    forall e | e in es :: !IsAnswer(e)
  }

  predicate UpToTake(w: World) {
    w.owner.First? || w.owner.Taking?
  }

  /** The resolved call and the queue behind it. */
  function HeldBack(u: World): seq<ToolCall>
    requires UpToTake(u)
  {
    [u.owner.resolved] + u.sess.queue
  }

  /** The resolved call and the queue are the end of the last turn's calls. */
  ghost predicate Live(v: World)
    requires UpToTake(v)
  {
    IsSuffix(HeldBack(v), LastCalls(v.sess.llm))
  }

  /** Up to the take, the call that was resolved and the queue stay what they were. */
  lemma {:induction false} StillUpToTake(v: World, e: Event)
    requires Shaped(v) && Enabled(v, e) && !IsAnswer(e) && UpToTake(Apply(v, e))
    ensures UpToTake(v) && HeldBack(Apply(v, e)) == HeldBack(v)
  {
    if e.Working? {
      MoveHolds(v, e.move);
    }
  }

  lemma {:induction false} MoveHolds(v: World, m: Move)
    requires Shaped(v) && v.owner.Works() && CanMove(v, m) && UpToTake(ApplyMove(v, m))
    ensures ApplyMove(v, m).owner == v.owner && ApplyMove(v, m).sess.queue == v.sess.queue
  {
  }

  /** No call of `calls` is anywhere in the transcript. */
  ghost predicate Gone(w: World, calls: seq<ToolCall>) {
    forall c | c in calls :: c.id !in AllIds(w.sess.llm)
  }

  lemma {:induction false} GoneStays(v: World, e: Event, calls: seq<ToolCall>)
    requires Recorded(v) && Enabled(v, e) && Gone(v, calls) && forall c | c in calls :: c.id in v.used
    ensures Gone(Apply(v, e), calls)
  {
    IdsStep(v, e);
  }

  lemma {:induction false} SuffixHas(held: seq<ToolCall>, calls: seq<ToolCall>, c: ToolCall)
    requires IsSuffix(held, calls) && c in held
    ensures c in calls
  {
    var done :| calls == done + held;
  }

  lemma {:induction false} GoneIsNotLive(v: World, held: seq<ToolCall>)
    requires Gone(v, held) && held != []
    ensures !IsSuffix(held, LastCalls(v.sess.llm))
  {
    var calls := LastCalls(v.sess.llm);
    if IsSuffix(held, calls) {
      SuffixHas(held, calls, held[0]);
      LastCallsAreCalls(v.sess.llm, held[0]);
    }
  }

  // ---------- Where the turn is ----------

  /** Where the turn of an answer is: taken out of the transcript, or under that many later user
      and assistant messages. */
  datatype Place = Out | Under(spoken: nat)

  /** A rewind takes messages off from the end, and the turn too once none is over it. */
  ghost function PlaceNext(v: World, place: Place, e: Event): Place
    requires Enabled(v, e)
  {
    var off := |Said(v.sess.llm)| - |Said(Apply(v, e).sess.llm)|;
    if place.Out? then Out
    else if !e.Rewind? then Under(place.spoken + Speaking(e))
    else if 0 <= off <= place.spoken then Under(place.spoken - off)
    else Out
  }

  ghost function PlaceAfter(u: World, start: Place, fs: seq<Event>): Place
    requires Legal(u, fs)
  {
    if fs == [] then start else PlaceNext(RunAll(u, Front(fs)), PlaceAfter(u, start, Front(fs)), Last(fs))
  }

  ghost predicate IsAt(said: seq<Message>, held: seq<ToolCall>, v: World, place: Place) {
    match place
    case Out => Gone(v, held)
    case Under(n) => said <= Said(v.sess.llm) && |Said(v.sess.llm)| == |said| + n
  }

  /** What was said up to the turn: its last message ends with the held calls. */
  ghost predicate EndsWith(said: seq<Message>, held: seq<ToolCall>) {
    said != [] && Last(said).Speaks() && held != [] && IsSuffix(held, LastCalls(said))
  }

  /** The held calls belong to the turn that `said` ends with, which is at that place. */
  ghost predicate BelongsAt(w: World, said: seq<Message>, held: seq<ToolCall>, place: Place) {
    EndsWith(said, held) && (forall c | c in held :: c.id in w.used) && IsAt(said, held, w, place)
  }

  lemma {:induction false} PlaceStep(said: seq<Message>, held: seq<ToolCall>, v: World, place: Place, e: Event)
    requires BelongsAt(v, said, held, place) && Recorded(v) && Enabled(v, e)
    ensures IsAt(said, held, Apply(v, e), PlaceNext(v, place, e))
  {
    if place.Out? {
      GoneStays(v, e, held);
    } else {
      SaidStep(v, e);
      SaidCalls(v.sess.llm);
      SaidCalls(Apply(v, e).sess.llm);
      if PlaceNext(v, place, e).Out? {
        CutOff(said, Said(v.sess.llm), Said(Apply(v, e).sess.llm), held);
      }
    }
  }

  lemma {:induction false} BelongsStep(said: seq<Message>, held: seq<ToolCall>, v: World, place: Place, e: Event)
    requires BelongsAt(v, said, held, place) && Recorded(v) && Enabled(v, e)
    ensures Recorded(Apply(v, e)) && BelongsAt(Apply(v, e), said, held, PlaceNext(v, place, e))
  {
    PlaceStep(said, held, v, place, e);
    IdsStep(v, e);
  }

  /** What is left when the turn is cut off has none of its calls. */
  lemma {:induction false} CutOff(said: seq<Message>, before: seq<Message>, left: seq<Message>, held: seq<ToolCall>)
    requires EndsWith(said, held) && said <= before && left <= before && |left| < |said| && IdsApart(before)
    ensures forall c | c in held :: c.id !in AllIds(left)
  {
    assert said == before[..|said|] && left == said[..|left|];
    IdsPrefix(before, |said|);
    forall c | c in held ensures c.id !in AllIds(left) {
      SuffixHas(held, LastCalls(said), c);
      LastIsElsewhere(said, |left|, c);
    }
  }

  /** The last message's calls are in no earlier one. */
  lemma {:induction false} LastIsElsewhere(said: seq<Message>, n: nat, c: ToolCall)
    requires IdsApart(said) && n < |said| && c in LastCalls(said) && Last(said).Speaks()
    ensures c.id !in AllIds(said[..n])
  {
    assert said[..n] == Front(said)[..n];
    IdsPrefix(Front(said), n);
    assert c.id in IdSet(Last(said).calls);
  }

  /** Once something has been said over the turn, its calls are not the last turn's. */
  lemma {:induction false} SpokenOver(said: seq<Message>, held: seq<ToolCall>, v: World)
    requires EndsWith(said, held) && Recorded(v) && said <= Said(v.sess.llm) && |Said(v.sess.llm)| > |said|
    ensures !IsSuffix(held, LastCalls(v.sess.llm))
  {
    var now := Said(v.sess.llm);
    SaidCalls(v.sess.llm);
    SaidSpeaks(v.sess.llm);
    assert said == now[..|said|];
    SuffixHas(held, LastCalls(said), held[0]);
    LastCallsAreCalls(said, held[0]);
    if IsSuffix(held, LastCalls(now)) {
      SuffixHas(held, LastCalls(now), held[0]);
      LastIsElsewhere(now, |said|, held[0]);
    }
  }

  /** Calls at the end of the last turn belong to it, with nothing said over it. */
  lemma {:induction false} LastTurnHolds(u: World, held: seq<ToolCall>)
    requires Recorded(u) && held != [] && IsSuffix(held, LastCalls(u.sess.llm))
    ensures BelongsAt(u, Said(u.sess.llm), held, Under(0))
  {
    var calls := LastCalls(u.sess.llm);
    SaidCalls(u.sess.llm);
    forall c | c in held ensures c.id in u.used {
      SuffixHas(held, calls, c);
      LastCallsAreCalls(u.sess.llm, c);
    }
    SuffixHas(held, calls, held[0]);
    SaidSpeaks(u.sess.llm);
  }

  lemma {:induction false} FollowRun(u: World, said: seq<Message>, held: seq<ToolCall>, start: Place, fs: seq<Event>)
    requires Recorded(u) && BelongsAt(u, said, held, start) && Legal(u, fs)
    ensures Recorded(RunAll(u, fs)) && BelongsAt(RunAll(u, fs), said, held, PlaceAfter(u, start, fs))
  {
    if fs != [] {
      FollowRun(u, said, held, start, Front(fs));
      BelongsStep(said, held, RunAll(u, Front(fs)), PlaceAfter(u, start, Front(fs)), Last(fs));
    }
  }

  lemma {:induction false} HoldsOn(u: World, fs: seq<Event>)
    requires Shaped(u) && Legal(u, fs) && NoAnswers(fs) && UpToTake(RunAll(u, fs))
    ensures Shaped(RunAll(u, fs)) && UpToTake(u) && HeldBack(RunAll(u, fs)) == HeldBack(u)
  {
    if fs != [] {
      assert fs == Front(fs) + [Last(fs)] && forall x | x in Front(fs) :: x in fs;
      ShapedRun(u, Front(fs));
      StillUpToTake(RunAll(u, Front(fs)), Last(fs));
      HoldsOn(u, Front(fs));
      ShapedAlways(RunAll(u, Front(fs)), Last(fs));
    }
  }

  lemma {:induction false} ShapedRun(u: World, fs: seq<Event>)
    requires Shaped(u) && Legal(u, fs)
    ensures Shaped(RunAll(u, fs))
  {
    if fs != [] {
      ShapedRun(u, Front(fs));
      ShapedAlways(RunAll(u, Front(fs)), Last(fs));
    }
  }

  /** The queue an answer takes up, exactly: wherever its turn is when the answer starts, and
      whatever comes between the answer and the take, it is the queue from the answer's start, and
      it is the rest of the last turn if and only if that turn is then in the transcript with
      nothing said over it.  A rewind that took the turn out leaves the queue of a turn that is
      nowhere in the transcript. */
  lemma {:induction false} QueueIsLiveIff(u: World, said: seq<Message>, start: Place, fs: seq<Event>)
    requires Shaped(u) && Recorded(u) && u.owner.First? && BelongsAt(u, said, HeldBack(u), start)
    requires Legal(u, fs) && NoAnswers(fs) && RunAll(u, fs).owner.Taking?
    ensures var v, place := RunAll(u, fs), PlaceAfter(u, start, fs);
            && Enabled(v, Take) && Apply(v, Take).work == Next(u.sess.queue) && HeldBack(v) == HeldBack(u)
            && (Live(v) <==> place == Under(0)) && (place.Out? ==> Gone(v, HeldBack(u)))
  {
    HoldsOn(u, fs);
    FollowRun(u, said, HeldBack(u), start, fs);
    LiveAtPlace(RunAll(u, fs), said, HeldBack(u), PlaceAfter(u, start, fs));
    TakesQueue(u, RunAll(u, fs));
  }

  lemma {:induction false} LiveAtPlace(v: World, said: seq<Message>, held: seq<ToolCall>, place: Place)
    requires Recorded(v) && BelongsAt(v, said, held, place)
    ensures IsSuffix(held, LastCalls(v.sess.llm)) <==> place == Under(0)
  {
    SaidCalls(v.sess.llm);
    if place.Out? {
      GoneIsNotLive(v, held);
    } else if place.spoken > 0 {
      SpokenOver(said, held, v);
    } else {
      assert Said(v.sess.llm) == said;
    }
  }

  lemma {:induction false} TakesQueue(u: World, v: World)
    requires UpToTake(u) && v.owner.Taking? && HeldBack(v) == HeldBack(u)
    ensures Enabled(v, Take) && Apply(v, Take).work == Next(u.sess.queue)
  {
    assert HeldBack(u)[1..] == u.sess.queue && HeldBack(v)[1..] == v.sess.queue;
  }

  /** A calm session's answers start out live, in every run. */
  lemma {:induction false} LiveAtAnswer(w: World, es: seq<Event>)
    requires AtRest(w) && Recorded(w) && Legal(w, es) && RunAll(w, es).calm && UpToTake(RunAll(w, es))
    ensures var u := RunAll(w, es);
            Shaped(u) && Recorded(u) && Live(u) && BelongsAt(u, Said(u.sess.llm), HeldBack(u), Under(0))
  {
    AlwaysKept(w, es);
    AlwaysRecorded(w, es);
    LastTurnHolds(RunAll(w, es), HeldBack(RunAll(w, es)));
  }

  // ---------- From the pause to the answer ----------

  predicate NoRewinds(es: seq<Event>) {
    forall e | e in es :: !e.Rewind?
  }

  /** The one call that waits, and the queue behind it. */
  function HeldUp(p: World): seq<ToolCall> {
    WaitingCalls(p.sess) + p.sess.queue
  }

  /** What waits goes on waiting, with the same queue. */
  ghost predicate WaitsOn(p: World, q: World) {
    Shaped(q) && OneWaits(q) && q.sess.Waiting() && HeldUp(q) == HeldUp(p) && q.sess.queue == p.sess.queue
  }

  lemma {:induction false} WaitsStep(q: World, e: Event)
    requires Shaped(q) && OneWaits(q) && q.sess.Waiting() && Enabled(q, e)
    requires !IsAnswer(e) && !e.Rewind? && !RepliesOver(q, e)
    ensures WaitsOn(q, Apply(q, e))
  {
    NobodyMoves(q, e);
    ShapedStep(q, e);
    OneWaitsStep(q, e);
    WaitsSame(q, e);
  }

  lemma {:induction false} NobodyMoves(q: World, e: Event)
    requires OneWaits(q) && q.sess.Waiting() && Enabled(q, e)
    ensures !e.Working? && !q.owner.Taking?
  {
  }

  lemma {:induction false} WaitsSame(q: World, e: Event)
    requires Enabled(q, e) && !e.Working? && !e.Take? && !IsAnswer(e) && !e.Rewind?
    ensures var s := Apply(q, e).sess;
            s.approvals == q.sess.approvals && s.questions == q.sess.questions && s.queue == q.sess.queue
  {
    if e.Send? || e.Force? || e.Reply? || e.Load? {
      SpokenSame(q, e);
    } else {
      ThreadsSame(q, e);
    }
  }

  lemma {:induction false} SpokenSame(q: World, e: Event)
    requires Enabled(q, e) && (e.Send? || e.Force? || e.Reply? || e.Load?)
    ensures var s := Apply(q, e).sess;
            s.approvals == q.sess.approvals && s.questions == q.sess.questions && s.queue == q.sess.queue
  {
  }

  lemma {:induction false} ThreadsSame(q: World, e: Event)
    requires Enabled(q, e) && !e.Send? && !e.Force? && !e.Reply? && !e.Load?
    requires !e.Working? && !e.Take? && !IsAnswer(e) && !e.Rewind?
    ensures var s := Apply(q, e).sess;
            s.approvals == q.sess.approvals && s.questions == q.sess.questions && s.queue == q.sess.queue
  {
  }

  lemma {:induction false} WaitsRun(p: World, gs: seq<Event>)
    requires Shaped(p) && OneWaits(p) && p.sess.Waiting()
    requires Legal(p, gs) && NoAnswers(gs) && NoRewinds(gs) && NoneRepliesOver(p, gs)
    ensures WaitsOn(p, RunAll(p, gs))
  {
    if gs != [] {
      var most, e := Front(gs), Last(gs);
      assert gs == most + [e] && e in gs && forall x | x in most :: x in gs;
      WaitsRun(p, most);
      WaitsStep(RunAll(p, most), e);
    }
  }

  /** An answer to what waits: its turn is where the run since the pause has put it. */
  lemma {:induction false} AnsweredAt(q: World, said: seq<Message>, place: Place, answer: Event)
    requires Shaped(q) && OneWaits(q) && Recorded(q) && q.sess.Waiting() && BelongsAt(q, said, HeldUp(q), place)
    requires IsAnswer(answer) && Enabled(q, answer)
    ensures var u := Apply(q, answer);
            && Shaped(u) && Recorded(u) && u.owner.First? && u.sess.queue == q.sess.queue && HeldBack(u) == HeldUp(q)
            && BelongsAt(u, said, HeldBack(u), place)
  {
    TheOneThatWaits(q, answer);
    ShapedAlways(q, answer);
    BelongsStep(said, HeldUp(q), q, place, answer);
    SaidStep(q, answer);
  }

  /** From the pause on: the user may speak over the paused turn any number of times before they
      answer, and anything may come between the answer and the take.  The queue that is taken is
      the one behind the pause, and it is the rest of the last turn if and only if by then every
      message put over the turn has been taken off again, and not the turn with them. */
  lemma {:induction false} QueueSincePauseIff(p: World, said: seq<Message>, gs: seq<Event>, answer: Event,
                                              fs: seq<Event>)
    requires Shaped(p) && OneWaits(p) && Recorded(p) && p.sess.Waiting() && BelongsAt(p, said, HeldUp(p), Under(0))
    requires Legal(p, gs) && NoAnswers(gs) && NoRewinds(gs) && NoneRepliesOver(p, gs)
    requires IsAnswer(answer) && Enabled(RunAll(p, gs), answer)
    requires var u := Apply(RunAll(p, gs), answer); Legal(u, fs) && NoAnswers(fs) && RunAll(u, fs).owner.Taking?
    ensures var u := Apply(RunAll(p, gs), answer);
            var v, place := RunAll(u, fs), PlaceAfter(u, PlaceAfter(p, Under(0), gs), fs);
            && Apply(v, Take).work == Next(p.sess.queue) && (Live(v) <==> place == Under(0))
            && (place.Out? ==> Gone(v, HeldUp(p)))
  {
    WaitsRun(p, gs);
    FollowRun(p, said, HeldUp(p), Under(0), gs);
    AnsweredAt(RunAll(p, gs), said, PlaceAfter(p, Under(0), gs), answer);
    QueueIsLiveIff(Apply(RunAll(p, gs), answer), said, PlaceAfter(p, Under(0), gs), fs);
  }

  /** A calm session's pauses start out that way, in every run. */
  lemma {:induction false} LiveAtPause(w: World, es: seq<Event>)
    requires AtRest(w) && Recorded(w) && Legal(w, es) && RunAll(w, es).calm && RunAll(w, es).sess.Waiting()
    ensures var p := RunAll(w, es);
            Shaped(p) && OneWaits(p) && Recorded(p) && BelongsAt(p, Said(p.sess.llm), HeldUp(p), Under(0))
  {
    AlwaysKept(w, es);
    AlwaysRecorded(w, es);
    LastTurnHolds(RunAll(w, es), HeldUp(RunAll(w, es)));
  }

  // ---------- When nobody speaks ----------

  predicate NobodySpeaks(es: seq<Event>) {
    forall e | e in es :: Speaking(e) == 0
  }

  /** Both transcripts hold the same user turns here too. */
  lemma {:induction false} SameTurns(u: World, fs: seq<Event>)
    requires Shaped(u) && Aligned(u.sess) && Legal(u, fs)
    ensures Aligned(RunAll(u, fs).sess)
  {
    if fs != [] {
      var v, e := RunAll(u, Front(fs)), Last(fs);
      SameTurns(u, Front(fs));
      ShapedRun(u, Front(fs));
      SameTurnsStep(v, e);
    }
  }

  lemma {:induction false} SameTurnsStep(v: World, e: Event)
    requires Shaped(v) && Aligned(v.sess) && Enabled(v, e)
    ensures Aligned(Apply(v, e).sess)
  {
    StepMirrors(v, e);
    if Seen(v, e).Some? {
      Runs.AlignedStep(Chat(v), Seen(v, e).value);
    }
  }

  /** A rewind always takes something off. */
  lemma {:induction false} RewindTakesOff(v: World, e: Event)
    requires Enabled(v, e) && e.Rewind? && Aligned(v.sess)
    ensures |Said(Apply(v, e).sess.llm)| < |Said(v.sess.llm)|
  {
    var i := FindUser(v.sess.messages, e.messageId, 0);
    var n := NthUser(v.sess.llm, Ordinal(v.sess.messages, i));
    RewindFindsItsCut(v.sess, i);
    assert Apply(v, e).sess.llm == v.sess.llm[..n];
    assert v.sess.llm[..n + 1] == v.sess.llm[..n] + [v.sess.llm[n]];
    SaidAppend(v.sess.llm[..n], v.sess.llm[n]);
    SaidPrefix(v.sess.llm, n + 1);
  }

  /** So as long as nobody speaks, one rewind is what decides. */
  lemma {:induction false} OutOnceRewound(u: World, fs: seq<Event>)
    requires Shaped(u) && Aligned(u.sess) && Legal(u, fs) && NobodySpeaks(fs)
    ensures PlaceAfter(u, Under(0), fs) == if NoRewinds(fs) then Under(0) else Out
  {
    if fs != [] {
      var most, e := Front(fs), Last(fs);
      assert fs == most + [e] && e in fs && forall x | x in most :: x in fs;
      OutOnceRewound(u, most);
      SameTurns(u, most);
      OutNext(RunAll(u, most), PlaceAfter(u, Under(0), most), e);
    }
  }

  lemma {:induction false} OutNext(v: World, place: Place, e: Event)
    requires Enabled(v, e) && Aligned(v.sess) && Speaking(e) == 0 && (place == Under(0) || place.Out?)
    ensures PlaceNext(v, place, e) == if e.Rewind? || place.Out? then Out else Under(0)
  {
    if e.Rewind? {
      RewindTakesOff(v, e);
    }
  }

  lemma {:induction false} RestIsAligned(w: World)
    requires AtRest(w)
    ensures Shaped(w) && Aligned(w.sess)
  {
  }

  /** When no user turn, round or reply comes between, the queue is live exactly when no rewind
      does. */
  lemma {:induction false} QueueIsLiveUnlessRewound(w: World, es: seq<Event>, fs: seq<Event>)
    requires AtRest(w) && Recorded(w) && Legal(w, es) && RunAll(w, es).calm && RunAll(w, es).owner.First?
    requires Legal(RunAll(w, es), fs) && NoAnswers(fs) && NobodySpeaks(fs) && RunAll(RunAll(w, es), fs).owner.Taking?
    ensures Live(RunAll(RunAll(w, es), fs)) <==> NoRewinds(fs)
  {
    LiveAtAnswer(w, es);
    QueueIsLiveIff(RunAll(w, es), Said(RunAll(w, es).sess.llm), Under(0), fs);
    RestIsAligned(w);
    SameTurns(w, es);
    OutOnceRewound(RunAll(w, es), fs);
  }
}
