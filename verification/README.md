# attini, modelled and proved in Dafny

attini is a terminal coding agent. It keeps a session as an append-only log on disk, sends the conversation
to a chat model, runs the tool calls the model asks for, and parks the calls a human must approve. This project
models its four stateful parts and proves what they promise, for every input, every run and every reachable state.

- **The session protocol of `attini tell` / `attini approve`** (`Transcript`, `TranscriptRepair` in `Repair.dfy`,
  `RepairLaws`, `OpenCalls`, `SessionLog`, `Compaction`, `Prune`, `Gate`, `Tell`, `Requests`, `SessionState`,
  `TellLaws`, `TurnLaws`, `CompactLaws`, `LogHandle`, `InvocationLaws`, `SessionTheorems`, `PrunedSession`,
  `LogReading`, `DispatchResults`, `TurnResults`, `RequestContents`, `TellLimits`, `TellSession`). `Tell` gives one
  invocation as a function of the session: the log and the pending set on disk, the message list in memory, and
  whether the append handle still is the file on the log's path. The model's replies, the permission verdicts, the
  tool results, the clock and the summariser are free inputs. The class `TellSession.Session` updates the same state
  in place, method by method, and each method is proved to compute its function in `Tell`. The main results speak of
  any sequence of invocations: every request is a legal transcript, it is what reloading and repairing the log at that
  moment rebuilds, no call runs twice or after it was answered, and a pending set can always be approved. What a prune
  costs of this is exact.
- **`AgentCore`** (`Invocations`, `Agent`, `AgentInvariant`, `AgentSteps`, `AgentBudget`, `AgentTranscript`,
  `AgentErasure`, `AgentSlots`, `AgentApproval`, `AgentRelease`, `AgentAnswers`, `AgentResults`, `AgentCounters`,
  `Tallies`, `AgentObject`): the state machine with
  12 input events, request ids, streamed tool-call slots, approvals and a tool loop. Argument parsers and error
  rendering are parameters. The class `AgentObject.AgentCore` refines it handler by handler.
- **The event-stream decoder and the response assembly above it** (`Sse`, `SseChunking`, `SseRefinement`, `SseWire`,
  `Stream`, `StreamLaws`, `StreamOutcomes`), over bytes, with UTF-8 validity and payload decoding as parameters. The
  format is that of the WHATWG HTML Living Standard, sections 9.2.5 and 9.2.6, with the differences the decoder
  documents: comments are events, bad UTF-8 is a sticky error, no byte order mark is stripped, and a CR that ends the
  input waits for its LF.
- **The patch engine** (`ByteSearch`, `Patch`, `PatchLaws`, `PatchResults`): the byte search and the two-phase apply
  over a map of files, with every I/O failure as an input.

A method is proved to compute its function; what that function's values mean is stated apart from it, in literal terms
and by position, in `PatchResults`, `SseWire`, `StreamOutcomes`, `AgentResults`, `LogReading`, `DispatchResults`,
`TurnResults` and `RequestContents`.

Names: a function or method carries the name of the Rust function it models, in Dafny's spelling. Theorems read
"…Iff" where both directions are proved.

## Assumptions, and promises that do not hold

Each assumption is a hypothesis of the lemma that needs it.

- *Call ids are not reused, the clock does not step back, no timestamp ties where a compaction cuts, and an invocation
  that cuts its own log finds no call open and parks none* (`SessionTheorems.SessionKeeps`, `SessionState.Forward`,
  `SessionState.Ticked`). The clock may stand still everywhere else. `RepairLaws.ReusedIdBreaksTranscript` shows
  repair turning a legal transcript into an illegal one when an id comes back. `Compaction.ReloadIsTailIff` says, on
  any log and whatever its clock did, when a reload after a compaction is the kept tail: when the folded records are
  stamped at or before the last of them and the kept ones after it; `CompactLaws.FoldNeedsTick` shows why the clock
  must also have moved on when the summary is written. The last assumption is the next promise.
  `Requests.RequestsClosedIff` needs none of them and gives the exact condition for a legal request.
- A prune is documented to drop only the records before its cut (docs/design/pruning.md:36-48). `Session::open` opens
  the append handle once (src/session.rs:55-58), `append` writes only to it (src/session.rs:266-275), and a prune
  renames a new file over the path (src/tell_cli.rs:1494-1512): from the cut on, nothing of that invocation reaches
  the log. `LogHandle.RecordsReachLogIff`: its records reach the log iff it does not cut, which the size of the log and
  its safe lines decide beforehand. `SessionTheorems.InvocationKeeps`: each of its requests is legal, but the log
  rebuilds it iff the invocation did not cut; the state it leaves is good iff it did not cut, or found nothing open and
  parked nothing. `SessionTheorems.ApproveAfterCutFails`: a call parked after a cut is run by the next approve, which
  then sends an illegal request; `PrunedSession.PrunedSessionFails` is such a session from the empty log.
  `SessionTheorems.RetryResendsRequest`: after a cut, an approve does not re-send the request that failed unless its
  prompt was the resume prompt.
- *The rate cap needs a clock that reads at least the window minus one*: exactly that, by `Gate.CapNeedsClockIff`.
  Below it `checked_sub` falls back to `now` and every earlier admission expires.
- Pruning is documented never to touch the newest summary or the retained tail (docs/design/pruning.md:54). The cut
  looks only at bytes and safe lines: `Prune.PruneKeepsIff` says when each survives, and
  `CompactLaws.PruneLosesSummaryAndTail` is a log that loses both.
- The comment on `safe_tail_start` has it return the record count when it finds no safe boundary, and then 0; the code
  returns 0, and so does the model (`Compaction.SafeTailStartIsLeast`).
- `line_is_safe_boundary` looks for a `text` member, but assistant records are written with `content`
  (src/session.rs:1029-1037): its non-blank-text clause never applies to a log attini wrote itself
  (`Prune.RenderedBoundary`).
- Cancelling a running tool turn leaves its assistant message unanswered, and every later request of that
  conversation is illegal: `AgentTranscript.RequestClosedIff` is an equivalence.
- Approve and reject look at the approval, not at the outcome, so a result that arrives for a call still waiting is
  lost to a rejection: `AgentApproval.ResultThenRejectionLosesIt`, and `AgentAnswers.LostOutcomeIsReached` from the
  initial state; `AgentApproval.OutcomeChangesIff` says exactly when.
- Event output is documented not to depend on chunking. It does for a line of exactly the limit whose CR ends a chunk:
  `SseChunking.ChunkingIsInvisibleIff` is exact for the decoder, `StreamLaws.ReadingIsMeaning` and
  `StreamLaws.ChunkingIsInvisibleIff` for a whole response, where only an edge before the end marker or a bad payload
  counts. `SseChunking.CutAtTheEdgeFails` and, in reads of at most 8192 bytes, `StreamLaws.CutStreamFails` are the
  failures.
- A failure in phase 1 of a patch is documented to remove every temp file. The one being written when a write or sync
  fails stays behind: `PatchLaws.FailedCheckChangesNothingIff`. Two paths that resolve to one file lose an edit
  without an error: `PatchLaws.AllEditsLandIff`. Edits beyond the last snapshot are skipped (`PatchLaws.Size`).
- A count of one is not a unique occurrence (`aa` in `aaa`): `ByteSearch.OneMeansUniqueIff` says for which needles it is.

## Model

| member | source | states |
|---|---|---|
| `TranscriptRepair.RepairMessages` | src/tell_cli.rs:2953-3012 | the queue-per-id loops of repair compute the specification `Repair` |
| `RepairLaws.RepairClosedIff` | src/tell_cli.rs:2953-3012 | on every input, the repaired list is a legal transcript iff no id is called twice and no result precedes its call |
| `RepairLaws.RepairIdempotent` | src/tell_cli.rs:2953-3012 | on every input, a second repair changes nothing and cancels nothing |
| `RepairLaws.ClosedIsFixedIff` | src/tell_cli.rs:2953-3012 | a legal transcript is returned unchanged iff its call ids are distinct |
| `RepairLaws.OrphansAreUnanswered` | src/tell_cli.rs:2953-3012 | the calls cancelled are exactly those without a recorded result, each once |
| `RepairLaws.RepairKeepsSkeleton` | src/tell_cli.rs:2953-3012 | non-tool messages survive in order and no id is answered twice, on every input |
| `RepairLaws.RepairHealedLog` | src/tell_cli.rs:2936-3073 | repairing the log with its late synthetic answers and any legal fresh turns gives the list sent plus those turns |
| `RepairLaws.RepairHealed` | src/tell_cli.rs:2936-3073 | repairing the healed log again cancels nothing and gives the same list |
| `RepairLaws.ReusedIdBreaksTranscript` | src/tell_cli.rs:2953-3012 | with a reused id, repair makes a legal transcript illegal |
| `RepairLaws.RepairedAnswersAreFirst` | src/tell_cli.rs:2953-3012 | on every input, each result kept is the first one recorded for its id, with its content, or the cancellation of a call without any |
| `OpenCalls.HealCloses` | src/tell_cli.rs:3033-3073 | repair cancels exactly the open calls of a recorded conversation, and healing leaves none open |
| `SessionLog.ReadChatMessages` | src/session.rs:318-354 | the line loop over records and cutoffs loads the messages after the newest summary's cutoff |
| `SessionLog.ReadLatestSummary` | src/session.rs:120-157 | the newest summary is the one loaded |
| `SessionLog.ReadLastEnd` | src/session.rs:199-229 | the end reason reported is the last one recorded |
| `SessionLog.ReadLatestPromptTokens` | src/session.rs:166-197 | the prompt tokens reported are the last recorded ones |
| `LogReading.SummaryIs` | src/session.rs:120-157 | the summary read is the text of the last summary record, missing iff there is none |
| `LogReading.EndIs` | src/session.rs:199-229 | the end reason read is that of the last end record, missing iff there is none |
| `LogReading.CountIs` | src/session.rs:166-197 | the prompt size read is that of the last usage record that has one, missing iff there is none |
| `LogReading.LoadIs` | src/session.rs:318-354 | loading returns, in order, the messages stamped after the cutoff of every summary in the log |
| `LogReading.RawLenIs` | src/tell_cli.rs:1818-1837 | the size of a message is the number of bytes of the UTF-8 encoding of all its text |
| `LogReading.CompactMeans` | src/tell_cli.rs:1157-1362 | compaction writes the summariser's answer, with the last folded record's time, iff the last prompt reached the trigger or the records weigh over 250000 bytes, something can be folded and the summariser answered; else nothing changes |
| `LogReading.CutAtIs` | src/tell_cli.rs:1374-1447 | a log is cut before record `i` iff it is over 100 MiB and `i` is the first user message or assistant message without calls at or past its midpoint |
| `Compaction.ComputeSafeTailStart` | src/tell_cli.rs:1793-1808 | the backward search computes `SafeTailStart` |
| `Compaction.SafeTailStartIsLeast` | src/tell_cli.rs:1793-1808 | the start is the least safe boundary among the newest records, or 0 |
| `Compaction.ComputeCompactionCutoff` | src/tell_cli.rs:1851-1890 | the walk terminates and computes `CompactionCutoff` |
| `Compaction.CompactionCutoffIsLeast` | src/tell_cli.rs:1851-1890 | the cut is the least candidate whose tail fits, is a safe boundary or the end, and is missing only when all fits |
| `Compaction.ReloadIsTailIff` | src/tell_cli.rs:1312-1362 | on any log, loading after a compaction returns exactly the kept tail iff the folded records are stamped at or before the last of them and the kept ones after it |
| `Compaction.MessageLoadedIff` | src/session.rs:318-354 | a message appended to any log is loaded iff it is stamped after the newest cutoff |
| `CompactLaws.FoldNeedsTick` | src/tell_cli.rs:1312-1362 | a message stamped no later than the summary's cutoff is never loaded, however late it was appended |
| `Prune.PruneOffsetPastMidpoint` | src/tell_cli.rs:1420-1447 | the loop returns the byte offset and record count of the first safe line at or past the midpoint |
| `Prune.RenderedBoundary` | src/tell_cli.rs:1453-1489 | which of attini's own records count as safe line starts |
| `Prune.ReloadAfterPrune` | src/tell_cli.rs:1374-1447 | loading a pruned log gives a suffix of what was loaded before, starting at the boundary it was cut at |
| `Prune.PruneKeepsIff` | src/tell_cli.rs:1374-1447 | a prune keeps the newest summary iff there is none or one stands at or after the cut, and the loaded records iff none lies before it |
| `CompactLaws.PruneLosesSummaryAndTail` | src/tell_cli.rs:1374-1447 | a log over the trigger size whose prune loses its only summary and an unsummarised record |
| `Gate.ToolCallGate.TryAdmit` | src/tell_cli.rs:540-565 | the deque loop makes the decision and the counters of `Admit` |
| `Gate.RateCapHolds` | src/tell_cli.rs:540-565 | over every run, more than the window elapses between an admission and the `calls`-th after it |
| `Gate.DecisionIff` | src/tell_cli.rs:540-565 | each decision iff its condition: turn cap, `calls` admissions in the closed window, session cap |
| `Gate.CapsHold` | src/tell_cli.rs:504-565 | admissions never exceed the turn and session caps |
| `Gate.RejectionConsumesNothing` | src/tell_cli.rs:537-565 | erase any rejected calls from any run: admissions, turn count and the decision on every later call are what they were |
| `Gate.CapNeedsClockIff` | src/tell_cli.rs:540-565 | for any limits with room, all runs on clocks from `c` on keep the rate cap iff `c` is at least the window minus one |
| `Requests.RequestsClosedIff` | src/tell_cli.rs:598-1001 | from any state, in any world: a request is legal iff the repaired conversation has distinct ids and no early answer |
| `Requests.RequestsOnlyGrow` | src/tell_cli.rs:598-1001 | an invocation only adds requests |
| `Requests.DispatchAnswersAll` | src/tell_cli.rs:859-997 | a turn that neither parks nor exhausts the session appends one answer per call, in call order |
| `DispatchResults.DispatchMeans` | src/tell_cli.rs:845-997 | from any state, call by call: the answers, the tools run, the calls parked and the records written, up to the call that finds the session exhausted |
| `DispatchResults.AnsweredInPlace` | src/tell_cli.rs:859-986 | in a turn that parks nothing and does not exhaust, the i-th message answers the i-th call with the text it was judged with, or the error that fits: unknown tool, unparsed command, turn limit, rate limit |
| `TurnResults.TurnMeans` | src/tell_cli.rs:763-1001 | every turn, in full: its end reason or that it goes on, the messages, records and events it adds, the nudge, the pending set, the gate |
| `RequestContents.RequestsStartRight` | src/tell_cli.rs:1062-1082 | from any state, every request opens with the text of the newest summary in its log, if there is one, then the two notes, then the repaired conversation |
| `RequestContents.OneFront` | src/tell_cli.rs:1062-1082 | that front is unique |
| `RequestContents.PromptSends` | src/tell_cli.rs:598-745 | from any state, a prompt first sends the front, the uncovered messages repaired, and its text |
| `RequestContents.ResumeSendsRight` | src/tell_cli.rs:353-592 | from any state, an approve with nothing pending adds nothing after a transport fault, the cut-off prompt after the turn limit, and the resume prompt otherwise |
| `RequestContents.ApprovalSendsRight` | src/tell_cli.rs:681-745 | an approve with a runnable pending set first sends the uncovered messages and the results of its calls, repaired |
| `RequestContents.RefusedApproval` | src/tell_cli.rs:605-705 | an approve whose grant is refused fails, sends and runs nothing and keeps the pending set |
| `RequestContents.BrokenApproval` | src/tell_cli.rs:681-708 | an approve that meets a command that does not parse runs exactly the calls before it, sends nothing, keeps the pending set and fails |
| `RequestContents.HealRecords` | src/tell_cli.rs:3033-3073 | repair records, per cancelled call, a rejection by repair and its answer |
| `RequestContents.HealPending` | src/tell_cli.rs:3033-3073 | from any state, repair drops the pending set iff it cancels a call of it |
| `RequestContents.ExecuteRecords` | src/tell_cli.rs:681-708 | approval records, per call, that a human approved it and its result |
| `LogHandle.RecordsReachLogIff` | src/session.rs:46-68 | from any state, an invocation's records reach the log iff it does not cut; if it does, exactly the cut log is left, and requests and history still grow |
| `LogHandle.DetachTurns` | src/session.rs:266-275 | with a stale handle the model-call loop does what it would do with a good one, but for the log |
| `InvocationLaws.CutLeaves` | src/tell_cli.rs:1374-1402 | a cutting invocation leaves a good state iff it found no call open and parked none; no call it parks is in the log, and each can be run |
| `SessionTheorems.SessionKeeps` | src/tell_cli.rs:371-1001 | every session under the assumptions above: all requests legal, and rebuilt by the log unless their invocation had cut it; no call run twice or after its answer; state good |
| `SessionTheorems.InvocationKeeps` | src/tell_cli.rs:371-1001 | from a good state, whatever the world does: requests legal, rebuilt by the log iff the invocation does not cut; the state left is good iff it does not cut or nothing is open before and parked after |
| `SessionTheorems.ApproveAfterCutFails` | src/tell_cli.rs:681-745 | after a cut that parked calls, approve runs calls the log does not know and sends an illegal request |
| `PrunedSession.PrunedSessionFails` | src/tell_cli.rs:1374-1402 | three invocations from the empty log, distinct ids and a strict clock, whose last request is illegal |
| `SessionTheorems.ApprovalSends` | src/tell_cli.rs:681-708 | from any state, an approve with pending calls runs them all and first sends the loaded conversation with their results |
| `SessionTheorems.ResumeSends` | src/tell_cli.rs:574-620 | from any state, an approve with nothing pending first sends the repaired conversation, and a resume prompt unless the last end was a transport fault |
| `SessionTheorems.PendingBelongsToLastTurn` | src/tell_cli.rs:987-997 | a pending call is a call of the last assistant record by id, name and arguments, under the kind of its name, unanswered and never run |
| `TurnLaws.ExecuteKeeps` | src/tell_cli.rs:681-708 | an approval never stops half way and answers every call of the pending set |
| `CompactLaws.AutoCompactKeeps` | src/tell_cli.rs:1230-1362 | pruning and compaction keep the invariant and touch neither requests, history nor the pending set; a cut takes the handle off the log and loses the summary; while calls are pending they do nothing |
| `SessionTheorems.RetryResendsRequest` | src/tell_cli.rs:574-592 | an approve after a transport fault sends exactly the list that failed if that invocation did not cut, and otherwise only if its prompt was the resume prompt |
| `TurnLaws.TurnsFault` | src/tell_cli.rs:772-788 | a loop that ends in a transport fault stops at a request made from the log as it stands |
| `TurnLaws.TurnsParkFresh` | src/tell_cli.rs:763-1001 | with fresh ids, what the loop parks was never called before |
| `TellLaws.HealKeeps` | src/tell_cli.rs:3033-3073 | persisting the cancellations answers every open call, drops the pending set and keeps the invariant |
| `TellLaws.RunningRequest` | src/tell_cli.rs:763-788 | inside the loop, the list in memory is the one the log rebuilds |
| `TellLaws.DispatchKeeps` | src/tell_cli.rs:845-997 | dispatching a turn keeps log, memory, history and parked calls in step |
| `TellLaws.NothingRunsAfterPark` | src/tell_cli.rs:845-997 | once a call of a turn is parked, no later call of it runs |
| `TellLaws.DispatchParks` | src/tell_cli.rs:909-997 | what a turn parks are calls of that turn, with their names and arguments |
| `TellLimits.TurnSpends` | src/tell_cli.rs:763-1001 | one turn runs and parks at most the turn limit, and at most what is left of the session cap |
| `TellLimits.InvocationSpends` | src/tell_cli.rs:371-1001 | one invocation runs and parks at most the calls just approved and the session cap, over all its turns |
| `TellSession.Session.OpenLog` | src/session.rs:46-68 | the append handle is the file on the path at the start of the invocation |
| `TellSession.Session.AppendRecord` | src/session.rs:266-275 | appending stamps the record and writes it to the handle: at the end of the log while the handle is the log's file, and else nowhere the loaders look |
| `TellSession.Session.AppendToolResult` | src/tell_cli.rs:3075-3091 | a result goes to the log and to memory |
| `TellSession.Session.BuildInitialMessages` | src/tell_cli.rs:1062-1082 | memory becomes the list `InitialMessages`: the front of `RequestContents.Opens` and the messages of `LogReading.LoadIs` |
| `TellSession.Session.RepairOrphanedToolCalls` | src/tell_cli.rs:3033-3073 | the loop persists each cancellation, clears a bypassed pending set and installs the repaired list |
| `TellSession.Session.PruneConversation` | src/tell_cli.rs:1374-1402 | over the trigger size the log is cut at the prune offset, and the handle is no longer the file on the path |
| `TellSession.Session.TryAutoCompact` | src/tell_cli.rs:1230-1362 | prune, judge, cut and append the summary as `AutoCompact` does |
| `TellSession.Session.ExecutePending` | src/tell_cli.rs:688-698 | the approval loop computes `Execute` |
| `TellSession.Session.DispatchCall` | src/tell_cli.rs:909-986 | one admitted call is answered, parked or skipped as `EffectOf` says, which `DispatchResults.EffectMeans` states in literal terms |
| `TellSession.Session.DispatchCalls` | src/tell_cli.rs:845-997 | the dispatch loop computes `DispatchFrom`, gate included, whose results `DispatchResults.DispatchMeans` gives |
| `TellSession.Session.RunTurns` | src/tell_cli.rs:763-1001 | the model-call loop computes `Turns` |
| `TellSession.Session.Begin` | src/tell_cli.rs:605-745 | everything before the loop computes `Start` |
| `TellSession.Session.Run` | src/tell_cli.rs:371-470 | one invocation, from opening the handle to the end records, computes `Invoke` |
| `AgentInvariant.StepKeeps` | src/sansio/agent.rs:1430-2040 | every event keeps the invariant of phase, status, slots, results and budget |
| `AgentInvariant.PhaseAndStatusAgree` | src/sansio/agent.rs:1900-1944 | in every reachable state status, phase and approvals agree and no tool turn is fully answered |
| `AgentInvariant.DispatchShape` | src/sansio/agent.rs:1620-1692 | a finished turn gets one entry per call, in order, in its starting approval |
| `AgentSteps.ToolStep` | src/sansio/agent.rs:1715-1959 | each tool-phase event replaces the one entry it finds, then acts, or asks again once all are answered |
| `AgentSteps.TailIsTheEnd` | src/sansio/agent.rs:2085-2100 | trimming chunk by chunk keeps exactly the end of the whole output, and totals count everything |
| `AgentResults.PromptIsSent` | src/sansio/agent.rs:1467-1491 | a prompt to an idle agent is appended and sent with the whole conversation, with a fresh budget; to a busy one it changes nothing |
| `AgentResults.PlainFinish` | src/sansio/agent.rs:1581-1603 | a finish without tool calls commits all texts of its request in order as one message and ends the turn |
| `AgentResults.FinishRules` | src/sansio/agent.rs:1604-1713 | a finish with tool calls, call by call: the error it is refused with or its entry, what it starts, what is left of the twenty calls, the counters, and what is sent if all are refused |
| `AgentResults.DecisionLands` | src/sansio/agent.rs:1779-1873 | a decision changes the first waiting entry of its id only, into the rejection, the released patch or command, or the error that fits |
| `AgentResults.ResultLands` | src/sansio/agent.rs:1715-1744 | a result lands on the first open entry of its id and on no other |
| `AgentResults.StatusShowsArrival` | src/sansio/agent.rs:1512-1579 | while a request streams, the status says whether anything arrived for it |
| `AgentResults.DroppedIsCounted` | src/sansio/agent.rs:1430-2000 | an event with nothing to act on changes nothing, emits nothing and is counted as dropped |
| `AgentResults.EffectIsCounted` | src/sansio/agent.rs:1430-2000 | an event with something to act on is counted as such, once |
| `AgentBudget.TurnLimitHolds` | src/sansio/agent.rs:1581-1713 | between two accepted prompts at most 20 calls are dispatched, over all tool-loop requests |
| `AgentBudget.RunSpends` | src/sansio/agent.rs:1581-1873 | what a run dispatches comes off the turn's remaining budget |
| `AgentTranscript.RequestClosedIff` | src/sansio/agent.rs:1493-1713 | a request carries a legal transcript iff no cancel has landed in a tool phase before it; ids may repeat |
| `AgentTranscript.RunVerdict` | src/sansio/agent.rs:1493-1713 | a run without such a cancel stays clean, with one the conversation is broken for good |
| `AgentErasure.StepSame` | src/sansio/agent.rs:1430-2040 | equality but for counters is a bisimulation |
| `AgentErasure.StaleEventsErase` | src/sansio/agent.rs:1512-1590 | deleting the stale events of a run changes neither its final state, counters apart, nor its actions |
| `AgentErasure.LateEventsErase` | src/sansio/agent.rs:1715-1777 | once a request is over, all later events with its id can be deleted from any continuation |
| `AgentErasure.IdsAreConsecutive` | src/sansio/agent.rs:2000-2040 | the ids of the requests a run starts are consecutive, so none is minted twice |
| `AgentErasure.EndingsAreAnnounced` | src/sansio/agent.rs:1493-2040 | a request ends only by its cancel, timeout, transport error, finish or last tool result, each told to the shell as such |
| `AgentSlots.StreamAssembles` | src/sansio/agent.rs:1512-1579 | while streaming, content and slots are what the texts and fragments received add up to, per index |
| `AgentSlots.KeptIsLongest` | src/sansio/agent.rs:1562-1575 | the fragments kept are the longest prefix within the limit |
| `AgentSlots.SlotsBounded` | src/sansio/agent.rs:1562-1575 | no slot exceeds the limit |
| `AgentSlots.InterleavingIsIrrelevant` | src/sansio/agent.rs:1527-1579 | only the order of deltas within an index matters |
| `AgentSlots.DeltasCommute` | src/sansio/agent.rs:1527-1579 | two deltas of different indices commute in every state, counters included |
| `AgentSlots.AscendingSorted` | src/sansio/agent.rs:2120-2138 | the committed calls are in increasing index order, each index once |
| `AgentSlots.TurnCommitted` | src/sansio/agent.rs:1596-1618 | a finished tool turn commits one assistant message with the assembled text and calls |
| `AgentSlots.DispatchedArgumentsAreWhole` | src/sansio/agent.rs:1620-1692 | every tool or preview a finish starts has all fragments of its index, in order, as arguments |
| `AgentSlots.CutCallsAreRefused` | src/sansio/agent.rs:1621-1629 | at the finish, a call that lost a fragment gets the size error in its place |
| `AgentResults.CutIds` | src/sansio/agent.rs:1562-1629 | the ids refused for their size are those of the indices whose fragments exceed 64 KiB |
| `AgentSlots.DecimalReads` | src/sansio/agent.rs:2120-2138 | the index in a substitute id is its decimal number |
| `AgentApproval.StepAdvances` | src/sansio/agent.rs:1715-1873 | a step moves each approval by at most one of NotRequired to Pending, Pending to Approved, Pending to Rejected |
| `AgentApproval.ApprovalsMoveForward` | src/sansio/agent.rs:1715-1873 | over any run of a tool turn: same calls, approvals only forward, previews fixed once shown |
| `AgentRelease.ReleasesWithinCommitted` | src/sansio/agent.rs:1581-1846 | over every run, patches and commands released for a request and id are at most the calls with that id committed for it |
| `AgentRelease.WhatRunsIsWhatWasAsked` | src/sansio/agent.rs:1527-1846 | over every run, everything that reaches a tool carries the parse of a streamed call's complete arguments; a patch is the one previewed, with the snapshots shown; a command is the argv shown |
| `AgentRelease.CutCallsNeverRun` | src/sansio/agent.rs:1562-1846 | a call that lost a fragment, or shares its id, reaches no tool at the finish or in any continuation |
| `AgentRelease.FlightOrigin` | src/sansio/agent.rs:1467-1873 | over every run, the entries of a running tool turn are those its finish dispatched, each still runnable or settled |
| `AgentApproval.ReleasedOnlyAsShown` | src/sansio/agent.rs:1747-1846 | over every run, only by its approval, and a patch with exactly the snapshots a preview delivered |
| `AgentApproval.OutcomesAreWrittenOnce` | src/sansio/agent.rs:1715-1873 | if no result lands on a waiting call, recorded outcomes never change |
| `AgentApproval.OutcomeChangesIff` | src/sansio/agent.rs:1785-1873 | exactly which decisions change a recorded outcome |
| `AgentApproval.ResultThenRejectionLosesIt` | src/sansio/agent.rs:1853-1873 | a result for a waiting call is recorded and then lost to a rejection |
| `AgentAnswers.AnswersAreOutcomes` | src/sansio/agent.rs:1715-2040 | over every run, the calls of a tool turn are answered iff an event completes it; the messages then are, per entry and in order, its own text if it ended well and the rendered error if not, the last one included; without a race every outcome recorded before is among them |
| `AgentResults.CompletionAsks` | src/sansio/agent.rs:1949-2040 | the event that completes a turn starts the next request, with the conversation and exactly these answers |
| `AgentResults.TextsAreDelivered` | src/sansio/agent.rs:1715-2040 | over every run, a text told as a result was delivered for that call by a tool result |
| `AgentResults.DeliveredIsTold` | src/sansio/agent.rs:1715-2040 | over race-free runs, what a tool result delivers to an open entry is what the model is told of it, in its place |
| `AgentAnswers.RefusalsAreTold` | src/sansio/agent.rs:1581-1713 | a finish whose calls are all refused answers each with its error, in order and for good |
| `AgentAnswers.LostOutcomeIsReached` | src/sansio/agent.rs:1853-1873 | from the initial state, two waiting commands: the first one's result is recorded and its rejection replaces it |
| `AgentCounters.EventsAreCounted` | src/sansio/agent.rs:1430-2040 | the 24 counters sum to the events, assistants are the committed finishes and at most users plus tools, the conversation only grows |
| `AgentCounters.ActionsAreCounted` | src/sansio/agent.rs:1620-1846 | over every run, executions, previews and command starts counted are the actions emitted |
| `AgentObject.FinalizeSlots` | src/sansio/agent.rs:2120-2138 | the loop over the slots yields calls by index and the ids that lost a fragment |
| `AgentObject.FindEntry` | src/sansio/agent.rs:1732-1739 | the search finds the first matching entry |
| `AgentObject.AgentCore.HandleEvent` | src/sansio/agent.rs:1430-1465 | one event changes the fields and emits the actions of `Step` |
| `AgentObject.AgentCore.OnToolCallDelta` | src/sansio/agent.rs:1527-1579 | the slot update computes its function |
| `AgentObject.AgentCore.DispatchCalls` | src/sansio/agent.rs:1620-1692 | the call loop computes `Dispatch` |
| `AgentObject.AgentCore.OnFinish` | src/sansio/agent.rs:1581-1713 | finishing computes its function |
| `AgentObject.AgentCore.OnToolResult` | src/sansio/agent.rs:1715-1744 | recording a result computes its function |
| `AgentObject.AgentCore.OnPatchPreviewReady` | src/sansio/agent.rs:1747-1777 | recording a preview computes its function |
| `AgentObject.AgentCore.OnApprove` | src/sansio/agent.rs:1779-1846 | approving computes its function |
| `AgentObject.AgentCore.OnReject` | src/sansio/agent.rs:1848-1873 | rejecting computes its function |
| `AgentObject.AgentCore.RecomputePhaseAndStatus` | src/sansio/agent.rs:1921-1944 | phase and status are recomputed from the entries |
| `AgentObject.AgentCore.AdvanceToNextRequest` | src/sansio/agent.rs:2010-2040 | the loop appends the tool messages of `Advance`, which `AgentAnswers.AnsweredNow` gives in literal terms, and starts the next request |
| `Sse.SseDecoder.NextEvent` | src/sansio/sse.rs:121-185 | the line loop computes `Next`, whose events on printed lines `SseWire.DecodesWhatWasPrinted` gives |
| `Sse.SseDecoder.ReadLine` | src/sansio/sse.rs:192-231 | taking a line consumes exactly what `TakeLine` says |
| `Sse.SseDecoder.HandleLine` | src/sansio/sse.rs:133-184 | one line updates data and yields the event or error of `OnLine`; how it is read is `SseWire.SeenField` and `SseWire.SeenNote` |
| `SseChunking.ChunkingIsInvisibleIff` | src/sansio/sse.rs:112-231 | any feeds and pulls give the events and state of one feed and one drain iff no pull fails at the edge with bytes to come |
| `SseChunking.CutAtTheEdgeFails` | src/sansio/sse.rs:204-231 | at every limit, a full-length line cut between CR and LF fails and the same bytes in one piece do not |
| `SseChunking.DrainThenMore` | src/sansio/sse.rs:112-185 | draining now and draining the rest later is draining all |
| `SseRefinement.SplitSound` | src/sansio/sse.rs:192-231 | splitting into lines loses no byte and cuts only at LF, CR LF or a CR not followed by LF |
| `SseRefinement.DecoderRefinesMeaning` | src/sansio/sse.rs:121-231 | the decoder yields the events and the error of the input's lines, read without any decoder state; the values of the lines are pinned in `SseWire` |
| `SseWire.DecodesWhatWasPrinted` | src/sansio/sse.rs:121-231 | print any lines, ended by LF or CR LF: the decoder yields exactly what the lines before the first bad one say, and that line's error |
| `SseWire.PrintingIsOnto` | src/sansio/sse.rs:133-184 | every line without a line end is the print of a well-formed one |
| `SseWire.PrintingIsOneToOne` | src/sansio/sse.rs:133-184 | and of only one |
| `SseWire.DataLine` | src/sansio/sse.rs:150-170 | the bytes of one data field and an empty line are one message with exactly the value, one space after the colon apart |
| `SseWire.OtherLines` | src/sansio/sse.rs:133-184 | a comment line is one comment with its text, a field of another name nothing |
| `SseRefinement.CallsMean` | src/sansio/sse.rs:112-231 | the same for every way of feeding and pulling short of the edge |
| `SseRefinement.PrematureIff` | src/sansio/sse.rs:204-231 | the edge is reached iff all complete lines are good and a full-length line and a CR are left |
| `Stream.DecodeSseStream` | src/curl.rs:240-279 | the read loop with its two objects computes `ReadAll` |
| `Stream.PumpAll` | src/curl.rs:259-276 | the inner loop computes `Pump` |
| `Stream.AssemblyBuilder.Absorb` | src/curl.rs:298-313 | absorbing a chunk computes `AbsorbChunk` |
| `Stream.AssemblyBuilder.AbsorbToolCall` | src/curl.rs:315-341 | the slot search and update computes `AbsorbTool` |
| `Stream.AssemblyBuilder.Result` | src/curl.rs:343-359 | the calls come out in slot order |
| `StreamLaws.ReadingIsMeaning` | src/curl.rs:240-279 | for every way of reading: the length error iff a read but the last ends at the edge before any end marker or bad payload, else the outcome of the input's lines |
| `StreamLaws.ChunkingIsInvisibleIff` | src/curl.rs:240-279 | two ways of reading the same bytes agree iff both or neither trip at the edge, or the bytes mean the length error |
| `StreamLaws.CutStreamFails` | src/curl.rs:240-279 | at the limit in use and in reads the buffered reader can deliver, a comment line read up to its CR fails, and read with CR and LF together does not |
| `StreamLaws.NothingAfterTheEndMatters` | src/curl.rs:262-270 | once the reads hold an end marker or a bad payload, no later byte and no read error changes the outcome |
| `StreamLaws.SlotsAssemble` | src/curl.rs:315-341 | one slot per index in order of first appearance, first non-empty id and name, all fragments in order |
| `StreamLaws.ChunksAssemble` | src/curl.rs:298-313 | texts concatenated, calls as above, last finish reason and usage |
| `StreamLaws.StreamResult` | src/curl.rs:240-359 | the result of a stream that reaches its end marker, from its chunks |
| `StreamOutcomes.PrintedStreamRead` | src/curl.rs:240-359 | from the lines the server wrote to the outcome, for every way of reading: bad payload, end marker, decoding error, read error or end of input, with the assembled result |
| `StreamOutcomes.EmptyReadEnds` | src/curl.rs:246-256 | an empty read is the end of the input |
| `StreamOutcomes.EndExists` | src/curl.rs:259-276 | every list of events has a place where the stream ends, or none that does |
| `ByteSearch.CountOccurrences` | src/tools.rs:1241-1256 | the counting loop computes `Count` |
| `ByteSearch.Position` | src/tools.rs:1270-1275 | the search finds the leftmost occurrence |
| `ByteSearch.ReplaceOnce` | src/tools.rs:1258-1268 | the replacement computes `Replace` |
| `ByteSearch.CountIsMaximum` | src/tools.rs:1241-1256 | the count is the largest number of occurrences no two of which overlap |
| `ByteSearch.CountZeroIff` | src/tools.rs:1241-1256 | zero iff there is no occurrence |
| `ByteSearch.CountOneIff` | src/tools.rs:1241-1256 | one iff there is an occurrence and all overlap the leftmost |
| `ByteSearch.OneMeansUniqueIff` | src/tools.rs:297-307 | a unique occurrence counts one; a count of one means a unique occurrence in every file iff the needle does not overlap itself |
| `ByteSearch.ReplaceKeepsTheRest` | src/tools.rs:1258-1268 | the leftmost occurrence is rewritten, prefix and suffix are kept byte for byte, and the edit can be undone |
| `Patch.PatchExecutor.PreviewPatch` | src/tools.rs:169-247 | the preview loop computes `PreviewFrom` and changes nothing |
| `Patch.PatchExecutor.PrepareEdit` | src/tools.rs:272-325 | one edit of phase 1 computes `PrepareOne`; the bytes it stages are those of `PatchLaws.Asked` |
| `Patch.PatchExecutor.WriteFile` | src/tools.rs:1297-1310 | creating, writing and syncing a temp file, with what each failure leaves |
| `Patch.PatchExecutor.ApplyPatch` | src/tools.rs:261-360 | the two loops compute `Apply`, whose files `PatchResults.AppliedFiles` gives byte for byte |
| `Patch.PatchExecutor.RenameAll` | src/tools.rs:330-359 | the rename loop computes `RenameFrom` |
| `PatchLaws.ApplyIs` | src/tools.rs:261-360 | apply, completely: result, error, files and tracked set from the edits on the original files, without temp files; each content put in place is the Add's, or the original with its leftmost match replaced |
| `PatchLaws.FailedCheckChangesNothingIff` | src/tools.rs:318-326 | a phase-1 failure leaves the files as they were iff no write was interrupted after its file was created |
| `PatchLaws.DistinctTargetsApplied` | src/tools.rs:261-360 | success puts in place exactly the content each edit asks for and changes nothing else; a rename failing at `i` leaves exactly the first `i` targets updated |
| `PatchResults.AppliedFiles` | src/tools.rs:261-360 | after success every path holds what the last edit resolving to it asks for: an Add's content, or the original file around its leftmost match with the replacement; all other paths are as before |
| `PatchResults.ApplySucceedsIff` | src/tools.rs:261-360 | apply succeeds iff every edit may be applied to files and snapshot as they are and no I/O fails |
| `PatchResults.FailureMeans` | src/tools.rs:261-360 | a failure reports the first edit refused or not written, with the error that fits the files, or the first rename that fails |
| `PatchResults.PreviewMeans` | src/tools.rs:169-247 | a preview succeeds iff every edit may be previewed, with the snapshots the files show; else the first refusal with the error that fits |
| `PatchLaws.OverlayIsLastEdit` | src/tools.rs:330-339 | every file holds what the last edit resolving to it made of the original |
| `PatchLaws.AllEditsLandIff` | src/tools.rs:261-360 | all edits land iff edits that resolve to one file agree on its content |
| `PatchLaws.PreviewSummarises` | src/tools.rs:169-247 | a preview reports all edits and paths and the lines added and removed, may be applied unasked iff every edit is an allowed update, and else names the first reason |
| `PatchLaws.LinesAddUp` | src/tools.rs:1277-1286 | line counts add up where a line ends, and ending the last line does not change the count |
| `PatchLaws.PreviewedAppliesIff` | src/tools.rs:169-360 | after a preview of unchanged files, apply succeeds iff every result fits the size limit and no I/O fails |
| `PatchLaws.AppliedOnlyOnSnapshot` | src/tools.rs:289-307 | an update goes through only on the very bytes of its snapshot |

## Left out

- JSON parsing and rendering, tool schemas and argument limits: decoded records, payloads and parsed calls are inputs.
- The model endpoint, child processes, timeouts, signals, colours and status lines.
- The session LOCK and a crash in the middle of an invocation: at most once is claimed for invocations that run to their end record.
- I/O failures of the session log: the log is the file on its path, appended to through one handle and replaced by a cut. What a stale handle writes is gone.
- Permission rules, granting, read roots, git probing and the write guards: their verdicts are inputs.
- The scratchpad directories created ahead of path resolution: resolution is a function of the path.
- Canonicalisation of paths: the resolved target of a path is taken as given and constant within a call.
- The parse-time rule that path strings in one patch differ: resolved targets may coincide anyway.
- Prompt and note texts, summariser prose, previews for the human, `ask` caching: texts are constants or inputs.
- Wrap-around and saturation of 64-bit ids, counters and lengths: they are unbounded.
- The raw body and the progress output of a streamed response, and errors of those sinks.
- Tracked files outside the workspace or without a repository: `mark_added` always adds the target here.
- Removing a temp file is taken to succeed.
- The order of the target paths in a patch preview: they are a set.
- Counters of the session (`Counters`) and metric snapshots: one opaque record.
- `AgentCore.active_tool_calls` and the other read-only projections.
- SessionTheorems.SessionKeeps: assumes call ids that are never reused, a clock that never steps back, no timestamp tie where a compaction cuts, and no invocation that cuts its log with a call open or parked, for the reasons given above.
