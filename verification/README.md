# A verified model of aracne's chat engine, description generators and benchmark measures

The repository is a code-topology tool with three parts that are hard to get right, and this
project models those and proves what they promise:

* **The chat engine** (`internal/chat`). A `Manager` runs LLM conversations in background
  goroutines over maps guarded by one mutex. It pauses on approvals and questions, resumes the
  tool calls queued behind them, races a user's stop against a running tool, fans sub-agent
  tasks over a worker pool, and shuts down while all of that is in flight. Each lock-held
  section is one atomic step. Runs are sequences of steps by any number of threads in any
  order, and a property of runs is proved for every such sequence.
* **The retry-until-dry generators** (`internal/cli/descriptions.go`, `bench/bench/chunkgen.py`)
  and the second worker pool that the first one uses.
* **The benchmark's measures**: the exact McNemar test, the Wilson interval, the reader of
  unified diffs, the repo-diverse draw; and the UTF-8-safe truncation of tool output.

## How the files fit together

| file | what it holds |
|---|---|
| `common.dfy`, `text.dfy`, `lines.dfy` | options, sequences, prefixes, decimal numbers; a text and its lines |
| `transcript.dfy` | the provider's transcript, its rule said by positions and as a running account, the backfill |
| `sessions.dfy` | both transcripts of a session, user turns, the rewind's two cuts |
| `chat_session.dfy` | a session's lock-held sections as methods that update its fields, each proved equal to the function of the model it stands for |
| `controls.dfy` | the flags that threads race over; the stop race |
| `provider.dfy` | all interleavings around one run loop: the provider's rule, the alignment of transcripts |
| `results.dfy` | the rule's other half: each tool message answers an open call, once |
| `turns.dfy` | the working thread section by section: pauses, resumes, stops; a refinement of `provider.dfy` |
| `answers.dfy` | which queue an answer takes up, and what rewinds and later turns in between make of it |
| `turnrace.dfy` | the stop race inside those runs |
| `consent.dfy` | what the user's decisions and stops lead to in those runs: what may run, what is reported, who keeps silent |
| `crossings.dfy` | runs from a new session that reach each case that goes wrong |
| `lifecycle.dfy` | many sessions: goBackground, Close, the sweep, opening and closing provider calls; the manager's fields taken through any run |
| `taskpool.dfy`, `agenttasks.dfy` | the pool that runs a task group, and the run of one task |
| `subagents.dfy` | the sub-agents' provider calls while the manager closes: which runs of task groups the sweep reaches |
| `descriptions.dfy`, `wave.dfy` | the retry loop, its batches, and the pool of one wave |
| `chunkgen.dfy` | the round loop of the fixture generator and its stall rule |
| `mcnemar.dfy`, `wilson.dfy` | the paired statistics |
| `diffs.dfy`, `patches.dfy`, `patchtexts.dfy` | the diff reader against a printer of edit scripts; patches one after another; the round trip on texts |
| `sampler.dfy`, `truncate.dfy` | the repo-diverse draw; the truncation |

`dafny verify dfyconfig.toml` checks everything.

## What the model assumes

* Saves succeed, and tool runs and provider calls return.
* Making an approval or a question and queueing the calls behind it
  (`internal/chat/manager.go:827-829`) is one step.
* One thread at a time works on a session's tool calls: the run loop, or the thread of one
  answer to an approval or a question. So in `turns.dfy` an answer is taken, and a reply with
  calls lands, only while no other thread works on calls. Everything else -- rewinds, user turns,
  workflow rounds, new run loops, stops, late results -- comes at any time that the code lets it.
* Message, call and approval ids are fresh; in `turns.dfy` the provider and the workflows give
  calls distinct non-empty ids and never use one again.
* In `turns.dfy` and `provider.dfy` one session is followed and Close is left to `lifecycle.dfy`.
* In the pool of a task group, no worker of an earlier run of the same group is still
  unwinding.

## Where the code does not do what it says, with the exact condition

* **Send does not look for an open call.** On an idle session with an approval waiting it goes
  through, and every request after it breaks the provider's rule until the user rewinds
  (`ProviderRuns.SendKeepsTheRuleIff`, `OpenCallPoisonsRequests`): the backfill looks only at the
  last turn with calls, and gives up once a user message follows it. Whole-run results about the rule
  ask that a user turn starts only on an idle session whose last turn owes nothing; a rewind
  always leaves the session that way by itself (`RewindMayResend`). A user who only answers and
  sends reaches such a session (`Crossings.SendOnPausedSession`).
* **A workflow's round looks at nothing**, neither its first one nor a follow-up: it keeps the
  rule exactly when no call is open and no run loop has copied the transcript without having
  replied yet (`ProviderRuns.ForceKeepsTheRuleIff`); a reply that lands after it breaks the rule
  exactly when the round's own call is still unanswered (`ForceDuringCall`, and
  `Crossings.ForceOnReply` for a run).
* **A run loop can come up under an answer**, since starting one looks only at whether another is
  up. It then answers calls that the answering thread still has in hand, and those are answered
  twice (`Crossings.BackfillUnderAnswer`). On a turn whose reply landed while nothing waited, and
  that is not stopped, forced, rewound, spoken over or reported by another thread, the calls
  answered and the calls that remain are the turn's calls in order exactly until that happens
  (`Turns.PausesConserveCallsIff`), and a run loop that loads while nothing waits does it exactly
  when calls remain (`Turns.FillsIff`).
* **A reply can land while something waits**; the code appends it without looking again
  (`internal/chat/manager.go:785-823`). A reply with calls begins a turn that every continuation
  keeps in order exactly when nothing waited as it landed (`Turns.ReplyConservesIff`): otherwise
  the answer to the old call takes up the new turn's queue, and the new turn's second call is
  answered before its first (`Crossings.SecondCallFirst`).
* **Two approvals can wait at once**: exactly through such a reply (`Turns.OneWaitsIff`). A user
  turn while an approved call is at work is enough to get there
  (`Crossings.TwoApprovalsAfterSend`), and so is a rewind (`TwoApprovalsWait`).
* **A rewind does not look for an answer at work.** It clears what waits but not the queue, so
  the answering thread goes on with calls of a turn that is gone (`Crossings.StaleQueueIsTaken`).
  From wherever its turn is when the answer starts, the queue it takes is the rest of the last turn
  exactly when, at the take, that turn is still in the transcript with nothing said over it,
  counting what later turns put over it and rewinds take off (`Answers.QueueIsLiveIff`); the same
  is counted from the pause on, when the user speaks over it before they answer
  (`QueueSincePauseIff`). While nobody speaks, it is so exactly when no rewind comes
  (`QueueIsLiveUnlessRewound`).
* **A result can come too late.** Each tool message answers an open call, and no call is answered
  twice, exactly when every result that came late has been cut off again by a rewind
  (`ResultRuns.TidyIffCutOff`). Late are a tool's own result after a rewind
  (`Crossings.ResultAfterRewind`) and a stop's report after the backfill
  (`StopReportsAfterBackfill`).
* **The backfill is idempotent exactly when no call of the turn has an empty id**
  (`Transcript.EnsureIdempotentIff`).
* **A stop and the tool's own thread**: exactly one of them appends the call's result, except when
  a run loop unwinds (or Close reaches the session) under the running tool; `StopRace.OneOwner`
  has the condition both ways, `TurnRace.OneReportsIff` the same inside the runs of `turns.dfy`,
  `NobodyReports` the shortest run, from a start that `Crossings.AnswerOvertakesUnwind` reaches.
* **A refused waiter closes `done` early**: what is marked completed then is sound exactly when
  Close had not marked the manager by then or every task had settled
  (`TaskPool.CompletedMeansDoneIff`); `CompletedWhilePending` is a run that marks a group completed
  with its only task pending.
* **A sub-agent can outlive Close's sweep.** A run of a task group leaves, and takes back the
  function that cancels its context, as soon as its waiter is refused, be its workers over or not.
  The sweep silences the sub-agents exactly when no run had left before it with workers still at
  work (`SubAgents.SweepSilencesIff`), which can only be where Close's mark came first
  (`OrphanWasRefused`), and does happen (`OrphanOutlivesSweep`).
* **A cut sub-agent has no backfill**: what it stores is as complete as what it started from
  exactly when it was not cut between the calls of a turn (`AgentTasks.LeftCompleteIff`, of what
  `TaskGroup.RunAgentTask` leaves), and if it was, every request of the resumed run breaks the
  rule (`TaskGroup.RunAndResume`).
* **The worker count** is clamped to 1..8; the comment at `internal/chat/task_runner.go:613`
  promises 2..8.
* **The description run's report** names exactly what is pending if and only if whatever ran out of
  tries earlier is still pending (`Descriptions.ReportedIsPendingIff`, `StaleReport`).
* **A wave with no worker** stands still when there is a batch, and only then
  (`Wave.NoWorkersNoProgress`, `NeverStuck`); the command line never asks for that.
* **The stall rule** spares a small gain once the backlog is small; the docstring at
  `bench/bench/chunkgen.py:282-283` does not say so. The model follows the code.
* **The diff reader** puts the insertions of a hunk without base lines one line too early, which
  shows exactly when the hunk inserts something after at least two base lines and the line it
  follows and the one before are not both touched anyway (`Diffs.EmptyOldSideIsOffIff`). It loses a
  deleted line exactly when that starts with `-- `, and takes it for a base path
  (`DeletedLineReadsIff`); an inserted line that starts with `++ ` it takes for a new path
  (`InsertedLineReadsIff`), which in an added file, or after such a deleted line, opens a file
  that the patch does not have (`PlusesOpenAFile`, `DashesThenPlusesOpenAFile`).
* **Paths with spaces or ` b/` in them.** A moved file's base path comes back exactly when it has no
  space at its ends (`Diffs.RenameReadsIff`), the paths of a `diff --git` line exactly when ` b/`
  does not come any earlier (`GitReadsBackIff`).
* **`splitlines` breaks at more than newlines**: a printed patch comes back as its lines exactly
  when none of them holds a break (`TextLines.UnlinesIff`). A line with a break inside it is still
  read as the one line it is, wherever in a hunk, exactly when the reader notices nothing of what
  follows the break, or only insertions where the line is an edit itself
  (`PatchTexts.ReadsAsOneIff`); a carriage return at the end of a line is of that kind. A kept line
  with a form feed in it can count as two, and every later line of the hunk is off by one
  (`BreakCountsTwice`, `FormFeedShiftsLines`).
* **A patch that does not start with its own headers** gives its first edits to the last file of
  the patch before: joining is the union exactly when what they touch is touched anyway
  (`Patches.ConcatenationIsUnionIff`). Headers are a `diff --git` line, a `---` and a `+++` line,
  or a rename.

## Model

| member | source | states |
|---|---|---|
| `Transcript.CompleteIff` | internal/chat/manager.go:871-910 | the provider's rule by positions (each call answered before the next user or assistant message) holds iff no earlier turn was left behind and the last one owes nothing |
| `Transcript.AppendTool` | internal/chat/manager.go:1031-1050 | a tool result, from any thread and however late, never breaks the rule, and settles exactly its own id |
| `Transcript.AppendSpeaker` | internal/chat/manager.go:514-516 | a user or assistant message keeps the rule for the turns before it iff they were complete |
| `Transcript.CutIsComplete` | internal/chat/manager.go:379-395 | cutting a transcript right before any of its turns leaves nothing owed |
| `Transcript.EnsureCompletes` | internal/chat/manager.go:871-910 | after the backfill nothing is owed, and the transcript obeys the rule iff no earlier turn was left behind |
| `Transcript.EnsureAddsExactlyOwed` | internal/chat/manager.go:878-910 | the ids it adds are exactly the owed ones, and it changes nothing when none is missing |
| `Transcript.BackfillInOrder` | internal/chat/manager.go:902-908 | calls are backfilled in their order, each judged by itself, with the same words |
| `Transcript.EnsureIdempotentIff` | internal/chat/manager.go:878-910 | running it twice adds nothing more iff no call of the last turn has an empty id |
| `Sessions.SetSystemKeeps` | internal/chat/manager.go:1447-1453 | replacing the system prompt changes no user turn, no open call and no earlier turn |
| `Sessions.SendKeepsRuleIff` | internal/chat/manager.go:514-516 | a user turn keeps the provider's rule iff nothing is owed before it |
| `Sessions.ForceKeepsRuleIff` | internal/chat/workflow_forced.go:185-207 | a forced workflow round does too, and owes exactly its own call |
| `Sessions.FillsTheNewest` | internal/chat/manager.go:1037-1043 | a result goes to the newest row of its call, with its text and status, and to no other row |
| `Sessions.FillKeepsTurns` | internal/chat/manager.go:1037-1043 | filling in a tool row never changes what the user said |
| `Sessions.RewindFindsItsCut` | internal/chat/manager.go:350-401 | between aligned transcripts the ordinal search finds the same user turn in both, both prefixes hold the same turns, and what is left is complete |
| `ChatSessions.ChatSession.Send` | internal/chat/manager.go:487-523 | blank content and a running session are refused unchanged; otherwise both transcripts get the turn |
| `ChatSessions.ChatSession.AddForcedCreateTasksCall` | internal/chat/workflow_forced.go:185-199 | both transcripts get the forced turn; afterwards exactly its own call is owed, and no earlier turn was left behind iff nothing was owed before it |
| `ChatSessions.ChatSession.RewindCut` | internal/chat/manager.go:350-401 | refuses a running session and an unknown message; else cuts both transcripts at the same user turn and clears what waits |
| `ChatSessions.ChatSession.TakeApproval` | internal/chat/manager.go:537-560 | takes out the approval with this id, if there is one, and no other |
| `ChatSessions.ChatSession.AppendToolResult` | internal/chat/manager.go:1031-1050 | the search from the end fills the newest row of the call and the provider gets the result |
| `ChatSessions.ChatSession.ResolveApproval` | internal/chat/manager.go:537-570 | undisturbed, an unknown id changes nothing; else the first approval with it goes, its call is answered and its row filled, and then exactly the queued calls before the next pause, in order, each with its row; that one waits and the rest stays queued |
| `ChatSessions.ChatSession.EnsureToolResultsComplete` | internal/chat/manager.go:878-910 | the two backward and forward searches compute the backfill, and report whether it changed anything |
| `ChatSessions.ChatSession.RunTool` | internal/chat/manager.go:645-727 | the flags' methods, from the tool's mark to its clear with any stops, starts, unwinds and Close in between: at most one thread may append the result, and nobody may iff every stop came after an unwind and one is in force; the call is forgotten |
| `ChatSessions.ChatSession.PrepareOrExecute` | internal/chat/manager.go:913-950 | undisturbed, a call gets its row and is answered at once or waits for the user, never both |
| `ChatSessions.ChatSession.ProcessToolCalls` | internal/chat/manager.go:825-838 | undisturbed, exactly the calls before the first pause are answered in order, that one waits, and the rest is the queue; the rows shown say the same |
| `ChatSessions.FindUserRow` | internal/chat/manager.go:362-372 | the row with this id, and how many user rows there are up to it |
| `ChatSessions.FindUserTurn` | internal/chat/manager.go:379-388 | the position of the user turn with this ordinal |
| `StopRace.OneOwner` | internal/chat/manager.go:645-727 | in every interleaving at most one of the tool's thread and the stops may append; nobody may iff every stop came after a run loop unwound and a stop is in force |
| `StopRace.ExactlyOneOwner` | internal/chat/manager.go:645-727 | with no unwind and no Close in between, exactly one may: the first stop if there is one, else the tool's thread |
| `StopRace.NobodyOwns` | internal/chat/manager.go:622-636 | a run loop that unwinds under the tool, then a stop: nobody appends |
| `StopRace.SecondClearIsIdle` | internal/chat/manager.go:952-986 | the deferred second clear changes nothing, whatever other threads did in between |
| `ProviderRuns.OneRunLoop` | internal/chat/manager.go:608-642 | a session is marked running exactly while a run loop of it exists |
| `ProviderRuns.EveryRequestIsComplete` | internal/chat/manager.go:737-823 | whatever the interleaving of stops, pauses, rewinds, late results and restarts, each request has every call answered before the next turn |
| `ProviderRuns.RewindMayResend` | internal/chat/manager.go:350-401 | a rewind needs no guard: it leaves the session complete and ready for its resend |
| `ProviderRuns.SendKeepsTheRuleIff` | internal/chat/manager.go:487-516 | Send on an idle session keeps the rule when no call is open, and breaks it when one is |
| `ProviderRuns.StaysBroken` | internal/chat/manager.go:878-910 | once an earlier turn is left behind, nothing but a rewind repairs it |
| `ProviderRuns.OpenCallPoisonsRequests` | internal/chat/manager.go:487-516 | after such a Send every request breaks the rule until a rewind |
| `ProviderRuns.ForceKeepsTheRuleIff` | internal/chat/workflow_forced.go:185-199 | a workflow's round, which may come at any time, keeps the rule iff no call is open and no run loop holds a copy of the transcript |
| `ProviderRuns.ReplyKeepsTheRuleIff` | internal/chat/manager.go:785-823 | a reply keeps the rule if nothing is owed when it lands, and breaks it if something is |
| `ProviderRuns.ForceDuringCall` | internal/chat/workflow_forced.go:114-199 | after a round that came during a provider call the reply keeps the rule iff the round's own call was answered by then; other results do not help |
| `ProviderRuns.AskedForAReason` | internal/chat/manager.go:737-823 | each provider call has its own reason, the start of a run loop or a batch of calls worked off; a failed call, a reply without calls, a pause and a stop are none |
| `ProviderRuns.SendsTheTranscript` | internal/chat/manager.go:737-763 | undisturbed, a run loop with nothing waiting sends the whole transcript, backfilled |
| `ProviderRuns.TakesTheReply` | internal/chat/manager.go:786-823 | and appends the reply, then works on its calls or leaves |
| `ProviderRuns.RoundsFollow` | internal/chat/manager.go:608-620 | it gets there by a start, which takes back any older stop, or by going on after a batch |
| `ProviderRuns.AlwaysAligned` | internal/chat/manager.go:350-401 | both transcripts hold the same user turns in every reachable state |
| `ProviderRuns.RewindAlwaysFindsItsCut` | internal/chat/manager.go:379-395 | so the rewind's search always finds its cut, at the same turn in both |
| `Turns.AlwaysKept` | internal/chat/manager.go:825-986 | the inductive invariant over every run of the working thread, whatever other threads do: until the last turn changes under calls in hand those calls are the end of it, and on a turn left to itself the account of results and calls holds |
| `Turns.PausesConserveCallsIff` | internal/chat/manager.go:825-871 | on a turn whose reply landed while nothing waited, and not stopped, forced, rewound, spoken over or reported by another thread since, the results and what remains are the turn's calls in order, through any pauses, iff no run loop has filled in results for calls in hand |
| `Turns.FillsIff` | internal/chat/manager.go:737-752 | a run loop that loads while nothing waits does so iff calls remain |
| `Turns.PausedOrDone` | internal/chat/manager.go:825-871 | on such a turn, until results are filled in: while something waits it is one call, and the turn's calls are those answered, the paused one and the queue; once nothing waits and nobody works all are answered |
| `Turns.ReplyConservesIff` | internal/chat/manager.go:785-823 | a reply with calls, no stop pending, begins a turn that every continuation keeps so, as long as it is left to itself and nothing is filled in, iff nothing waited as it landed |
| `Consent.RunsOnlyIfPermitted` | internal/chat/manager.go:913-950 | in every run a call gets near a tool or a task group only if the policy permitted that call or the user approved it |
| `Consent.DecidedCallIsAnswered` | internal/chat/manager.go:561-604 | a call that the user declines, or answers for, never runs: until the thread goes on it reports one result, with the call's id and the user's words, and it goes on only after that |
| `Consent.AnswerTakesItsOwn` | internal/chat/manager.go:537-559 | an answer takes out the approval or question it is about and leaves the others in order |
| `Consent.WaitingSessionIsSilent` | internal/chat/manager.go:742-747 | while something waits no run loop copies the transcript or calls the provider, whoever starts one, until it is answered or rewound |
| `Consent.StopIsObeyed` | internal/chat/manager.go:678-728 | while a stop is in force no tool, task group or provider call begins, no run loop passes its head, and no reply is taken that had not passed the look after the call |
| `Consent.StopReaches` | internal/chat/manager.go:645-676 | a stop claims the ordinary tool that is running, unless an earlier one has, and cancels the task group that is running |
| `Consent.StopReportSays` | internal/chat/manager.go:670-672 | the claimed call's result says that it was interrupted |
| `Consent.EachClaimReportedOnce` | internal/chat/manager.go:645-676 | a stop reports a call only if one claimed it, and once for each claim |
| `Consent.EachCallInItsPlace` | internal/chat/manager.go:952-975 | in every reachable state task groups run as such and other calls as tools, and a batch worked off leaves nothing queued |
| `Consent.StopKeepsTheRest` | internal/chat/manager.go:820-838 | a stop in the middle of a batch leaves exactly the calls behind the one at hand in the session's queue |
| `Consent.ThreadsGoOn` | internal/chat/manager.go:737-986 | in every reachable state whoever works on calls, or answers, has a step to take, and so has the run loop |
| `Consent.AnyoneMayAct` | internal/chat/manager.go:487-620 | user turns, answers, starts, stops and late results are possible wherever the program takes them |
| `Consent.AnyTurnMayBeRewound` | internal/chat/manager.go:350-372 | an idle session can be rewound to each of its user turns |
| `Consent.AnyDecisionMayFall` | internal/chat/manager.go:913-975 | a call can be refused, paused or let through wherever the program decides that |
| `Turns.AtMostOneWaits` | internal/chat/manager.go:537-606 | in every run in which each reply with calls lands while nothing waits, whatever crosses what, at most one approval or question waits, and none while anyone has calls to work on |
| `Turns.OneWaitsIff` | internal/chat/manager.go:785-823 | after a reply with calls the run keeps to one iff nothing waited when it landed; if something did, the reply's first call can pause beside it |
| `Turns.CalmQueueIsLive` | internal/chat/manager.go:537-606 | while the last turn has not changed under calls in hand, the queue an answer takes up is what follows, in the last turn, the call just resolved, even after stops |
| `Answers.QueueIsLiveIff` | internal/chat/manager.go:350-401 | wherever its turn is when the answer starts, and with anything in between: the queue is the one from the answer's start, and it is the rest of the last turn iff that turn is then in the transcript with nothing said over it; a turn that a rewind took out is nowhere in the transcript |
| `Answers.QueueSincePauseIff` | internal/chat/manager.go:487-570 | the same from the pause on, with the user speaking over the paused turn any number of times before the answer: what counts is that rewinds take off all that was put over the turn, and not the turn |
| `Answers.LiveAtPause` | internal/chat/manager.go:825-838 | a pause starts out that way while no other turn's calls are in hand or wait |
| `Answers.LiveAtAnswer` | internal/chat/manager.go:537-560 | an answer starts out that way while the last turn has not changed under calls in hand |
| `Answers.QueueIsLiveUnlessRewound` | internal/chat/manager.go:350-401 | while nobody speaks, the queue is the rest of the last turn iff no rewind comes |
| `Turns.BackfillIdleIff` | internal/chat/manager.go:737-752 | on a turn with that account, left to itself, until a run loop has filled in results: the backfill has nothing to add iff no calls remain |
| `Turns.RunsMirror` | internal/chat/manager.go:737-986 | every run here is a run of the coarser model, and a disciplined one if its users are |
| `Turns.EveryRequestIsComplete` | internal/chat/manager.go:737-986 | so when user turns and rounds keep off a running session and an open call, each request obeys the rule through every pause, resume, stop and rewind |
| `TurnRace.OneReportsIff` | internal/chat/manager.go:952-986 | inside such runs at most one of the tool's thread and the stops owns the result, and nobody does iff every stop came after a run loop unwound and one is in force |
| `TurnRace.ExactlyOneReports` | internal/chat/manager.go:952-986 | with no run loop leaving meanwhile exactly one does: the first stop if there is one |
| `TurnRace.NobodyReports` | internal/chat/manager.go:622-636 | with one on its way out, two steps after which nobody does |
| `Crossings.AnswerOvertakesUnwind` | internal/chat/manager.go:537-570 | a new session reaches that start: the user approves before the paused run loop is gone |
| `Crossings.SendOnPausedSession` | internal/chat/manager.go:487-516 | a new session reaches an idle state with a waiting approval, where Send goes through and breaks the rule |
| `Crossings.ForceOnReply` | internal/chat/workflow_forced.go:185-199 | and one where a workflow's round comes before the reply and breaks it |
| `Crossings.StaleQueueIsTaken` | internal/chat/manager.go:357-395 | a rewind while the approved call runs: the answering thread takes up the old turn's second call, with no call left in the transcript |
| `Crossings.TwoApprovalsWait` | internal/chat/manager.go:558-570 | and after one more turn two approvals wait |
| `Crossings.TwoApprovalsAfterSend` | internal/chat/manager.go:487-516 | and so they do after a plain Send while the approved call is at work |
| `Crossings.BackfillUnderAnswer` | internal/chat/manager.go:608-620 | a run loop started while the approved tool runs, on a turn nobody disturbed, answers both calls, and the tool's report answers the first again |
| `Crossings.SecondCallFirst` | internal/chat/manager.go:785-838 | a turn that nobody disturbs but whose reply [c, d] landed while an old call waited: the answer to the old call takes the queue, d is answered and the thread ends with c waiting |
| `Crossings.ResultAfterRewind` | internal/chat/manager.go:350-401 | the result of a tool that ran through a rewind lands in a transcript without any call |
| `Crossings.StopReportsAfterBackfill` | internal/chat/manager.go:645-676 | a stop claims the running call, a run loop fills in its result, and the stop's report answers it again |
| `ResultRuns.TidyIff` | internal/chat/manager.go:1031-1050 | each tool message answers a call of its own turn, and no call twice, said by positions and as a running account |
| `ResultRuns.OnTimeIsTidy` | internal/chat/manager.go:737-823 | while each result comes when its call is open, that holds of every transcript and every request, through backfills, rewinds and restarts |
| `ResultRuns.TidyIffOnTime` | internal/chat/manager.go:1031-1050 | in a run without a rewind it holds exactly then |
| `ResultRuns.TidyIffCutOff` | internal/chat/manager.go:350-401 | in any run it holds iff each result that came late has been cut off again by a rewind |
| `Lifecycle.CountsAlways` | internal/chat/manager.go:84-134 | the live count is the number of background goroutines up to their decrement, in every reachable state |
| `Lifecycle.NoAddAfterClose` | internal/chat/manager.go:84-101 | nothing is added to the WaitGroup once Close has marked the manager |
| `Lifecycle.ClosedIsQuiet` | internal/chat/manager.go:114-134 | once Close returns without an error no background goroutine exists, then or in any later state |
| `Lifecycle.QuietAlways` | internal/chat/manager.go:608-688 | a session is owned by at most one thread, an open call is the one a stop would cancel, and the sweep reaches every run loop |
| `Lifecycle.SilenceAfterClose` | internal/chat/manager.go:114-156 | after the mark and the sweep no run loop opens another provider call, and every open one is cancelled |
| `SubAgents.SweepSilencesIff` | internal/chat/task_runner.go:146-237 | for sub-agents: some continuation of the sweep has a worker inside a provider call that is not cancelled iff some run had left, uncancelled, with workers still at work |
| `SubAgents.OrphanWasRefused` | internal/chat/task_runner.go:209-221 | which can be only where the run's waiter was refused, so after Close's mark |
| `SubAgents.OrphanOutlivesSweep` | internal/chat/task_runner.go:594-600 | and is reached from a new manager |
| `SubAgents.StopSilencesItsRuns` | internal/chat/manager.go:661-668 | a session's stop cancels exactly its own runs that have not left, and their workers then begin no provider call they had not looked for already |
| `SubAgents.HandsOutItsTasks` | internal/chat/task_runner.go:196-206 | a run hands out no more than its tasks, wherever its workers go on |
| `SubAgents.TaskGroups.StopSession` | internal/chat/manager.go:661-668 | the loop cancels exactly the session's registered runs |
| `SubAgents.TaskGroups.CancelAllRuns` | internal/chat/manager.go:150-155 | the loop cancels every registered run |
| `SubAgents.TaskGroups.Perform` | internal/chat/task_runner.go:146-157 | each method takes the maps where the step system's event takes them |
| `Lifecycle.StopCancelsTheCall` | internal/chat/manager.go:645-655 | in every reachable state a stop cancels the session's open provider call, and until the run loop is gone it opens no other |
| `Lifecycle.StopCancelsNoOther` | internal/chat/manager.go:645-655 | and it cancels no other call, of this session or another, open or to come |
| `Lifecycle.StoppedLoopLeaves` | internal/chat/manager.go:622-636 | a run loop with a stop leaves at its next step, and takes every trace of its run with it |
| `Lifecycle.FreshRunCalls` | internal/chat/manager.go:608-620 | a run that starts on an idle session gets to its call, with a context that is not cancelled, whatever stops came before |
| `Lifecycle.RunningIsOwned` | internal/chat/manager.go:608-642 | no session is marked running without a thread that will unmark it |
| `Lifecycle.OneSweep` | internal/chat/manager.go:114-121 | only the first Close sweeps |
| `Lifecycle.MarkAloneIsNotSilence` | internal/chat/manager.go:114-134 | between mark and sweep a run loop may still open one |
| `Lifecycle.Manager.Perform` | internal/chat/manager.go:84-156 | each of the manager's methods takes its fields where the step system's event takes them |
| `Lifecycle.Manager.Replay` | internal/chat/manager.go:84-156 | so a new manager taken through any run counts exactly the goroutines that are there, counts none once a Close has returned, and after the sweep holds a stop for every run loop's session |
| `Lifecycle.Manager.CancelAllRuns` | internal/chat/manager.go:139-156 | the two loops stop every running session and cancel every open call |
| `TaskPool.ClampWorkerCount` | internal/chat/task_runner.go:613-622 | one to eight workers; a valid request is granted, a larger one cut to eight, anything else is two |
| `TaskPool.AlwaysGood` | internal/chat/task_runner.go:146-237 | the inductive invariant of the pool, with cancellation and Close at any point |
| `TaskPool.EachTaskInOnePlace` | internal/chat/task_runner.go:169-221 | each pending task is claimed at most once and is always in exactly one of unfed, held, processed |
| `TaskPool.CompletedMeansDone` | internal/chat/task_runner.go:209-237 | a group none of whose spawns was refused is marked completed only when every task completed or failed |
| `TaskPool.CompletedMeansDoneIff` | internal/chat/task_runner.go:209-214 | when the waiter is spawned in a group not cancelled, every continuation completes the group only with all tasks settled iff Close has not marked the manager or all are settled already |
| `TaskPool.CompletedWhilePending` | internal/chat/task_runner.go:209-237 | a run that marks a group completed with its only task pending |
| `TaskPool.UndisturbedRunCompletes` | internal/chat/task_runner.go:146-237 | a run that nobody cancels and Close does not disturb ends with its group marked completed, every task settled and handed out exactly once |
| `TaskPool.EndingIsRecorded` | internal/chat/task_runner.go:188-195 | every task ends at most once, and what the group records of it is how it ended |
| `TaskPool.NoneBeginsOnceCancelled` | internal/chat/task_runner.go:188-195 | once the group is cancelled no task begins |
| `TaskPool.NeverStuck` | internal/chat/task_runner.go:169-221 | in every reachable state some thread of the run can go on, until all are gone |
| `TaskPool.RunsAreBounded` | internal/chat/task_runner.go:169-221 | every interleaving is finite, by a measure that falls at each step |
| `TaskPool.EndsClean` | internal/chat/task_runner.go:169-221 | `jobs` and `done` are each closed exactly once, adds equal dones, and without a cancellation the group is marked completed |
| `AgentTasks.PendingIdsAreUnfinished` | internal/chat/task_runner.go:582-590 | a task's id is listed iff the task is pending or was left running |
| `AgentTasks.TaskGroup.PendingTaskIds` | internal/chat/task_runner.go:582-590 | the loop computes that list in order |
| `AgentTasks.TaskGroup.UpdateTask` | internal/chat/task_runner.go:526-550 | the search by id stores the record in place of the first task with it and touches no other; an unknown id is reported and changes nothing |
| `AgentTasks.TaskGroup.RunCalls` | internal/chat/task_runner.go:347-361 | a reply's calls are answered in order up to the cut, and those from the cut on are left; the context is looked at twice a call |
| `AgentTasks.TaskGroup.Turn` | internal/chat/task_runner.go:294-361 | one turn appends its reply and the results of its calls, up to a cut; a failed call fails the task, a reply without calls is its result unless blank; the transcript stays as complete as it was iff the calls left have results all the same; it is cut by the look that sees the cancellation and by no other |
| `AgentTasks.TaskGroup.RunAgentTask` | internal/chat/task_runner.go:240-362 | each request is the one before with its reply and the results of all its calls, the first is the opening, and what is stored is what the last one and its reply leave; at most 40, each as complete as the opening, and so is what is stored iff the calls left open by a cut have results all the same; it ends settled unless it was cut, by the first look that sees the cancellation, and touches no other task |
| `AgentTasks.TaskGroup.RunAndResume` | internal/chat/task_resume.go:10-58 | a run that takes the task up again starts from what was stored; if a call was left open, each of its requests breaks the rule |
| `AgentTasks.AllAnswered` | internal/chat/task_runner.go:318-356 | a turn whose calls have all been run leaves the transcript as complete as it was |
| `AgentTasks.LeftCompleteIff` | internal/chat/task_runner.go:318-356 | over distinct call ids what a run leaves is complete iff it started complete and no call was left open |
| `AgentTasks.CutTranscriptIsIncomplete` | internal/chat/task_runner.go:318-356 | so a cut between two calls of a turn always leaves an open call |
| `Descriptions.ChunkDescriptionResources` | internal/cli/descriptions.go:697-711 | the batches in order are exactly the resources, none empty, all full but perhaps the last |
| `Descriptions.TriesAreBounded` | internal/cli/descriptions.go:543-577 | no resource is tried more than maxRetries times |
| `Descriptions.WavesAreBounded` | internal/cli/descriptions.go:543-605 | over a fixed set there are at most maxRetries waves per resource, however descriptions come and go |
| `Descriptions.EndingMeans` | internal/cli/descriptions.go:547-571 | a run ends as failed iff the reading failed, as finished iff nothing is pending, and gives up iff something is and all of it has had its tries |
| `Descriptions.RetryableInOrder` | internal/cli/descriptions.go:557-564 | what may be tried again keeps its order, each resource judged by its own tries |
| `Descriptions.EqualTries` | internal/cli/descriptions.go:543-577 | while descriptions never disappear everything pending has been in every wave |
| `Descriptions.ShrinkingRun` | internal/cli/descriptions.go:543-605 | then there are at most maxRetries waves, the run succeeds iff nothing is pending, and otherwise reports exactly what is |
| `Descriptions.ReportedIsPendingIff` | internal/cli/descriptions.go:557-571 | in general the report covers what is pending, and equals it iff what ran out earlier is still pending |
| `Descriptions.StaleReport` | internal/cli/descriptions.go:557-571 | a run whose report names a resource that is described |
| `Descriptions.Sort` | internal/cli/descriptions.go:557-564 | splits what is pending into what may be tried again, in order, and what is out of tries |
| `Descriptions.CountTries` | internal/cli/descriptions.go:572-577 | one more try for every resource of every batch, and for no other |
| `Descriptions.Wave` | internal/cli/descriptions.go:557-577 | a wave is idle iff everything pending is out of tries |
| `Descriptions.RunDescriptionGeneration` | internal/cli/descriptions.go:543-605 | the loop ends, at the first reading where it can, in the way that reading demands |
| `Wave.AlwaysConserved` | internal/cli/descriptions.go:609-653 | by any weight, what was handed over is with a worker, in the buffer or collected, in every reachable state |
| `Wave.ResultsNeverBlock` | internal/cli/descriptions.go:614-641 | a worker with a result always finds room for it |
| `Wave.CollectedInOrder` | internal/cli/descriptions.go:642-652 | results are collected in the order in which they are finished |
| `Wave.WaveIsAPermutation` | internal/cli/descriptions.go:609-653 | when the wave returns the results are a permutation of the batches and the bar counted all their resources |
| `Wave.BarCountsResources` | internal/cli/descriptions.go:590-653 | over the batches of a list the bar ends at the list's length |
| `Wave.NeverStuck` | internal/cli/descriptions.go:609-653 | with a worker, or without batches, some step is always possible until the wave returns |
| `Wave.NoWorkersNoProgress` | internal/cli/descriptions.go:609-624 | with neither, no step is possible at all |
| `Wave.RunsAreBounded` | internal/cli/descriptions.go:609-653 | every interleaving of a wave is finite, about three steps a batch |
| `ChunkGen.RunRound` | bench/bench/chunkgen.py:341-377 | a round runs its waves in order, all chunks unless time or throttling stops it, and says which |
| `ChunkGen.RoundStopMeans` | bench/bench/chunkgen.py:341-377 | a round is stopped at its first wave before which time is up, or in which at least one worker and at least half of them hit a limit, for that reason; otherwise not |
| `ChunkGen.ChunksCover` | bench/bench/chunkgen.py:341-341 | the chunks cover what remains and the last is not empty |
| `ChunkGen.EndIsJustified` | bench/bench/chunkgen.py:330-397 | every round before the end was needed, on time, not stopped, and paid; and the reason given at the end is true |
| `ChunkGen.RoundsAreBounded` | bench/bench/chunkgen.py:330-397 | at most ceil(max(0, U-10g)/g) + min(U, 10g) rounds from U undescribed resources with min_gain g, whatever max_rounds is |
| `ChunkGen.RankFalls` | bench/bench/chunkgen.py:388-394 | a round that does not stall takes at least one off that bound |
| `ChunkGen.SlowestRunIsTheBound` | bench/bench/chunkgen.py:388-394 | and the slowest rounds that do not stall take exactly that many |
| `ChunkGen.OkMeansCovered` | bench/bench/chunkgen.py:330-402 | status ok means enough coverage or nothing left; for a share of a non-empty fixture it means exactly enough coverage |
| `ChunkGen.NextRound` | bench/bench/chunkgen.py:337-394 | one round ends as its waves and its gain demand; a round that is not stopped runs all its chunks |
| `ChunkGen.GenerateFixture` | bench/bench/chunkgen.py:330-406 | the nested loops end where and as the rounds demand |
| `McNemar.ChooseCounts` | bench/bench/paired.py:190-190 | binomial coefficients count the outcomes with that many wins |
| `McNemar.TailsMirror` | bench/bench/paired.py:189-191 | the distribution at one half is symmetric |
| `McNemar.CountsLopsidedOutcomes` | bench/bench/paired.py:179-191 | the p-value is the share of outcomes at least as lopsided as the observed one |
| `McNemar.CapMattersIff` | bench/bench/paired.py:189-191 | for unequal counts the doubled tail is P(X<=min)+P(X>=max); the cap at one changes the value iff the counts are equal |
| `McNemar.RangeAndSymmetry` | bench/bench/paired.py:179-191 | p is in (0,1], does not depend on the side, and is 1 iff the counts differ by at most one |
| `McNemar.MoreLopsidedIsSmaller` | bench/bench/paired.py:189-191 | on the same number of pairs p falls strictly as the smaller count does |
| `McNemar.ValueIff` | bench/bench/paired.py:186-188 | there is a p-value iff some pair is discordant |
| `Wilson.BoundsSolveTheScoreEquation` | bench/bench/metrics.py:29-37 | the unclamped bounds are the two solutions of n(p-x)^2 = z^2 x(1-x), and there are no others |
| `Wilson.ClampsAreIdle` | bench/bench/metrics.py:29-37 | they satisfy 0 <= lo <= k/n <= hi <= 1, so the clamps never change them |
| `Wilson.EndsOfTheScale` | bench/bench/metrics.py:29-37 | for none of n the interval is 0 to 3.8416/(n+3.8416), and (0, 0) for n = 0 |
| `Diffs.ParsePatch` | bench/bench/localization.py:47-94 | the line loop over a text computes the reader's step folded over the text's lines |
| `TextLines.UnlinesIff` | bench/bench/localization.py:54-54 | lines put together come back as they were iff none holds one of the breaks of `splitlines` |
| `Diffs.HeaderReadsBack` | bench/bench/localization.py:37-37 | every printed hunk header is read back, with or without counts |
| `Diffs.PatchReadsBack` | bench/bench/localization.py:47-94 | reading a printed patch, after anything, recovers for each file its status, the deleted base lines and the base line each insertion follows (or 1), also for files that are moved and changed, or only moved |
| `Diffs.EachFileReadsBack` | bench/bench/localization.py:47-94 | in a patch that names each file once, every file gets exactly its own change and there are no others |
| `PatchTexts.TextReadsBack` | bench/bench/localization.py:47-94 | the same from the patch's text, when no path holds a break and of its other lines the reader notices nothing after a break: the text reads as exactly the changes it was printed from; without breaks its lines are the printed ones |
| `PatchTexts.EachFileTextReadsBack` | bench/bench/localization.py:47-94 | and gives each file its own change and no others |
| `PatchTexts.ReadsAsOneIff` | bench/bench/localization.py:54-93 | a line of a hunk with breaks inside it is read as the one line it is, at every place in a hunk, iff nothing after its first break is a header or an edit line, except insertions where the line is an edit |
| `PatchTexts.CarriageReturnIsQuiet` | bench/bench/localization.py:54-54 | a line that ends with a carriage return is such a line |
| `PatchTexts.OneLineIsQuiet` | bench/bench/localization.py:54-54 | and so is every line without a break |
| `PatchTexts.BreakCountsTwice` | bench/bench/localization.py:54-54 | a kept line with a break inside it counts as two base lines |
| `PatchTexts.FormFeedShiftsLines` | bench/bench/localization.py:54-94 | a printable patch with a form feed in a kept line, whose deletion of line 2 is read as line 3 |
| `Diffs.PureMoveReadsBack` | bench/bench/localization.py:75-80 | a file that is only moved, with no paths and no hunks, is read as renamed under its base path, with no line |
| `Diffs.RenameReadsIff` | bench/bench/localization.py:75-80 | a `rename from` line takes up the file of the stripped path, which is its own iff it has no space at its ends |
| `Diffs.PathsAloneOpen` | bench/bench/localization.py:60-74 | the two path lines alone open the file they name with the status of its kind, renamed where they differ |
| `Diffs.BlankPathOpensNothing` | bench/bench/localization.py:64-74 | a blank path opens nothing |
| `Diffs.BarePathReads` | bench/bench/localization.py:60-66 | a path comes back also without its side's prefix |
| `Diffs.GitReadsBackIff` | bench/bench/localization.py:55-59 | the paths of a `diff --git` line come back iff ` b/` does not come any earlier |
| `Diffs.ReadHunkIff` | bench/bench/localization.py:37-37 | a line is a hunk header iff it is two at signs, a range for each side, two more and anything; it gives the first range's line |
| `Diffs.EmptyOldSideIsOffIff` | bench/bench/localization.py:77-93 | any hunk without base lines is read back iff it inserts nothing, follows at most one base line, or the line it follows and the one before are touched anyway |
| `Diffs.DeletedLineReadsIff` | bench/bench/localization.py:60-63 | a deleted line is counted and passed over iff it does not start with two dashes and a space; else it only replaces the base path |
| `Diffs.InsertedLineReadsIff` | bench/bench/localization.py:64-75 | an inserted line is put down to its base line iff it does not start with two pluses and a space, or that changes nothing; else it opens the file that path and the base path make |
| `Diffs.PlusesOpenAFile` | bench/bench/localization.py:64-75 | in a file with a base such a line is lost; in an added one it opens a file the patch does not have |
| `Diffs.DashesThenPlusesOpenAFile` | bench/bench/localization.py:60-75 | after a deleted line with dashes it opens the file that line names |
| `Patches.ConcatenationIsUnion` | bench/bench/localization.py:47-94 | reading one patch after another is the union path by path, when the second says which file and line its edits are about, with or without `diff --git` lines |
| `Patches.ConcatenationIsUnionIff` | bench/bench/localization.py:47-94 | with any lines before those headers it is iff what they touch in the first patch's last file is touched anyway |
| `Patches.PrintedIsAnchored` | bench/bench/localization.py:47-94 | a printed patch does say so, whatever lines about modes or similarity it has |
| `Patches.JoinedTextsParse` | bench/bench/localization.py:293-301 | the joined patch texts of a case read as the union of the texts, whether or not they end with a newline; only the later ones need their own headers |
| `PatchTexts.JoinedPatchesReadBack` | bench/bench/localization.py:293-301 | the joined texts of printed patches read exactly as one patch with the files of all |
| `Sampler.GroupByRepo` | bench/bench/sources.py:202-204 | the groups hold each repository's cases in order, repositories as first seen |
| `Sampler.DrawRepoDiverse` | bench/bench/sources.py:187-213 | the nested loops draw round-robin over the repositories, stop as soon as enough is drawn or at the cap, and the result is as diverse as promised |
| `Sampler.DrawLength` | bench/bench/sources.py:206-213 | the draw is as long as asked for, or all that the cap leaves |
| `Sampler.DrawCovers` | bench/bench/sources.py:193-198 | its repositories are exactly the first `samples` of the pool's |
| `Sampler.DrawIsPrefix` | bench/bench/sources.py:193-198 | of each repository it holds a beginning, within the cap |
| `Sampler.DrawIsBalanced` | bench/bench/sources.py:193-198 | no repository is more than one ahead of another that is not used up |
| `Sampler.DrawIsDiverse` | bench/bench/sources.py:187-213 | all of that about the pool itself |
| `Truncate.EndsWholeIff` | internal/chat/native_tools.go:216-221 | in valid UTF-8 the loop's test holds iff the bytes so far are valid UTF-8 |
| `Truncate.CutIsLongest` | internal/chat/native_tools.go:212-222 | the cut is the longest prefix within the limit that is itself valid UTF-8 |
| `Truncate.CutLosesLittle` | internal/chat/native_tools.go:212-222 | at most three bytes are dropped |
| `Truncate.ReplacementIsKept` | internal/chat/native_tools.go:217-219 | a U+FFFD that the text itself has at the cut is kept |
| `Truncate.TrimTakesLineEnds` | internal/chat/native_tools.go:207-223 | trimming takes off line ends only, and all that are at the end |
| `Truncate.NoticeNamesTheLength` | internal/chat/native_tools.go:222-222 | the notice names the length of the whole text |
| `Truncate.OutputIsText` | internal/chat/native_tools.go:207-223 | what is shown of a long valid text is valid, and all of the above at 64000 bytes |
| `Truncate.TrimToolOutput` | internal/chat/native_tools.go:207-223 | short output loses only its line ends; long output is cut, trimmed and marked with its length |

## Left out

- Providers, HTTP, SQLite, the session store, subprocesses and git: their results are what a step may bring.
- The run loop's cap of 40 rounds, permissions and user settings are free choices of a step.
- Event records, titles, prompts and timestamps.
- Follow-up rounds of a workflow as loops; each round is a forced turn that may come at any time.
- Two runs of one task group at once (a resumed run while cancelled workers unwind).
- A request that only a task group's own transcript carries is followed in `agenttasks.dfy`, not in `provider.dfy`.
- Regular expressions beyond the diff reader's two; digits are ASCII.
- Floating point: reals and scaled integers, so rounding of the p-value, the interval and the coverage is not modelled.
- Sampling and the bootstrap, and the measures that only add up columns.
- Lifecycle.SilenceAfterClose: speaks of the run loops' calls; those of sub-agents are in `subagents.dfy`.
- Lifecycle.ClosedIsQuiet: speaks of goroutines the manager tracks; a Close that gives up waiting promises nothing.
- Descriptions.WavesAreBounded: takes the resources from a fixed finite set, as the topology is not rebuilt during a run.
- ChunkGen.RoundsAreBounded: takes the total as fixed, nothing described as ever lost, and the list of undescribed resources as counting the same rows as the coverage, which both read one database with one filter.
- PatchTexts.TextReadsBack: takes paths without line breaks, which git prints in quotes.
- Patches.ConcatenationIsUnionIff: what follows the lines without headers is a patch whose `+++` lines come after a `---` or `diff --git` line of its own and whose edits come after a file and a hunk header of its own.
- Sampler.DrawRepoDiverse: the pool is shuffled already.
- Truncate.CutIsLongest: for valid UTF-8, as promised; for other bytes the method's own result says what is cut.
- Wilson.ClampsAreIdle: the square root is a number known by its square.
