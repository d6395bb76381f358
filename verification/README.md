# qi-agent: a verified model

qi-agent is an agent kernel: a tool-calling loop over a message transcript, a pipeline that rewrites
that transcript before every LLM call, stores that persist it, and several small concurrent
protocols around it. This project models that logic in Dafny and proves what it keeps.

`dafny verify dfyconfig.toml` checks everything.

## How the model is built

Code that changes state step by step is a class or a loop here as it is in the source; every such
method is proved equal to a function of the old state, and what the source promises is proved about
that function. Concurrency is a step system: a state, one function that performs one atomic step of
one thread, and lemmas over every finite sequence of steps, so over every interleaving. A step that
is not enabled changes nothing. Fields such as `handed`, `settled` or `produced` record the past so
that a lemma can speak of a whole run; the code never reads them.

What the code cannot see is a parameter and arbitrary: replies of the LLM, tools, the summariser,
answers to approval requests, timeouts, the order in which threads run, and faults of the database.

| file | subject |
|---|---|
| Transcript, Window, Compressor | grouping of messages, trimming to a token budget, summarising |
| AsyncCompressor, ContextManager, SnapshotSwitch | background compression, the strategy chain before each call, and what switching to a snapshot loses |
| AgentLoop | the chat loop, with stops at every test and exceptions in every listener, handler, call and tool |
| SharedHistory | several such loops on one history, after a stop that returned before its loop ended |
| Llm | accumulation of a streamed reply |
| Executor | approval, parallel run and ordered results of a batch of tool calls |
| Mailbox, PostOffice | draining an inbox against a concurrent writer; the dispatcher |
| RunProtocol, Pool, Approval | running and stopping a conversation, the slots of all conversations and subtasks, approvals |
| Store, Repair, Memory | SQLite sessions, filling in lost tool-call ids, the memory files |
| WsClient | the browser's WebSocket client; replies are matched by id as in section 5 of the JSON-RPC 2.0 specification |
| Telemetry, Events | the two span indexes, the event bus |

Every lemma switches automatic induction off, which keeps the proofs short to verify and says by its
recursive calls what the induction is on.

## Main results

- A chat sends only lists in which each tool call is answered at once and in order, whatever the LLM
  replies and whatever is trimmed, summarised, switched or mailed in, exactly when it begins on such a
  list and no loop of an earlier, stopped chat is still live (`SharedHistory.PairedFromExactlyWhen`,
  `AgentLoop.ChatSendsPairedHistories`); and it ends on such a list under an exact condition
  (`AgentLoop.ChatEndsPairedExactlyWhen`).
- Trimming keeps the longest suffix of whole groups that fits (`Window.TrimKeepsLongestSuffix`,
  `Window.CutIsUnique`); no strategy chain breaks up a group (`ContextManager.PreStepKeepsGroups`).
- What a snapshot loses, from its request to the switch, over any turns, any chain and any progress of
  the worker in between (`SnapshotSwitch.SwitchAfterTurns`).
- What `run` returns, when it is done and when it is stuck, over all interleavings of managers,
  workers and stops (`RunProtocol.RunReturnsItsOwn`, `RunProtocol.AloneRunMeansDone`,
  `RunProtocol.EveryDoneIsExplained`), and which exits of it and of a subtask give the slot back
  exactly once (`Pool.SlotsAreConserved`, `Pool.OwesExactlyWhen`).
- Every letter is in exactly one place, with its receipt if undeliverable
  (`PostOffice.EveryLetterInOnePlace`); drains lose and duplicate nothing (`Mailbox.DrainConserves`).
- Which answer an approval returns (`Approval.ApprovalsAreSafe`, `Approval.ReturnsFirstExactlyWhen`).
- A streamed reply does not depend on how it was cut or interleaved (`Llm.SameContentSameResult`);
  a batch of tool calls with distinct ids does what a call-by-call specification says, and one with
  repeated ids what a specification by last judgement says (`Executor.Execute`,
  `Executor.DistinctBatch`, `Executor.ReportsMatchResults`).
- What is loaded is what was saved (`Store.LoadAfterSave`, `Store.SettledSurvivesRestart`,
  `Repair.SessionTranscriptsAreRepaired`); the memory file agrees with a plain list over every run, and
  keeps within its cap for exactly the compact texts (`Memory.RunAgreesWithList`,
  `Memory.CapHoldsExactlyWhen`).
- The WebSocket client over every sequence of events (`WsClient.EveryRunIsSafe`,
  `WsClient.ReplacedSocketsDoNotMatter`); the two span indexes (`Telemetry.FirstInFirstOut`); the
  listeners' order (`Events.OrderIsUnique`).

## What the proofs found

Where a promise does not hold of the code, the model keeps the code as it is, a lemma shows the
case, and the promise is proved under its exact condition.

- A chat that starts on a paired history ends unpaired exactly when a step that it reached kept a
  request and then the executor raised or the stop test after the tools struck
  (`AgentLoop.ChatEndsPairedExactlyWhen`), and under the same condition the next chat starts unpaired
  (`AgentLoop.NextChatStartsPairedExactlyWhen`). A stop during the first tool call is an instance, from
  any paired history (`AgentLoop.StopInToolEndsUnpaired`).
- A stopped `run` returns before its loop has ended, and the next `run` clears the flag that the loop
  goes by. Both then write to one history: the answer of a tool that was running at the stop comes
  behind the next input, alone, and is sent so (`SharedHistory.LateAnswerStandsAlone`). From the moment a
  chat begins everything sent is paired (or settled), whatever happens, exactly when the history is and no
  earlier loop is live (`SharedHistory.PairedFromExactlyWhen`, `SharedHistory.SafeToBeginExactlyWhen`).
- Switching to a background snapshot drops all groups appended since it was requested. It happens
  exactly when they are at most `max_growth` **plus the groups that pre-steps took away meanwhile**, by
  trimming (less the anchors), by compression or by another switch, because freshness compares numbers
  of groups (`SnapshotSwitch.SwitchAfterTurns`). So with a `max_growth` of 0 an appended group can be
  lost: behind a trimmed one (`SnapshotSwitch.TrimmingHidesALoss`), and without any window when the
  worker finishes between the take and the busy test (`SnapshotSwitch.CompressionHidesALoss`). The bound
  `max_growth` holds of a list that was only appended to (`AsyncCompressor.SwitchDropsAppended`).
- `run` can wait for ever. A run that has its context to itself is stuck, once its worker and all stops
  are over, exactly when a signal is missing, in one of three ways (`RunProtocol.AloneRunMeansDone`): a
  stop completed between the two `begin_chat` calls (`RunProtocol.StopBetweenBeginsIsLost`); the chat
  died before the handler that records failures, of a listener to the start of the turn, or of what is no
  `Exception` (`RunProtocol.DeadChatIsStuck`); or a listener to a stop raised behind the flag
  (`RunProtocol.DeadStopIsStuck`). Only another stop ends that (`RunProtocol.StuckForEver`).
- A run that finds itself done without its own chat having recorded its end was signalled by another
  thread after it cleared the stop flag (`RunProtocol.EveryDoneIsExplained`). That happens in each of
  the three ways of not being alone: a stop that was half done (`RunProtocol.HalfDoneStopFakesDone`), a
  worker left over from a stopped run (`RunProtocol.LeftoverWorkerFakesDone`), and a second run that
  passed the gate too (`RunProtocol.SecondRunFakesDone`).
- A caller owes a slot exactly while it is on the way with it, waiting included, and for good when it is
  one of these (`Pool.OwesExactlyWhen`): a call whose worker outlived the grace period, a call whose
  worker's thread could not be started, a subtask whose factory threw what is no `Exception`. The counter
  never falls below their number (`Pool.LostSlotsStayLost`). A stuck call keeps its slot until another
  stop (`Pool.StuckKeepsItsSlot`).
- The dispatcher does not take the lock of `drain_by_type`. Letters put back keep their order among
  themselves in any case (`Mailbox.RePutKeepsOwnOrder`), and stay in front of what arrives during the
  re-puts exactly when nothing arrives before any of them (`Mailbox.RePutKeepsOrder`);
  `Mailbox.RePutCanReorder` is the family of cases with one letter in between.
- While an approval is pending the last acceptable response stands (`Approval.LastAcceptableStands`); the
  first one stands exactly when the last has its value (`Approval.FirstStandsExactlyWhen`,
  `Approval.ReturnsFirstExactlyWhen`, `Approval.SecondResponseOverwrites`).
- A decision of `ALLOW` is never executed (`Executor.RunsExactlyWhen`). Of repeated call ids the last
  judgement counts for all (`Executor.TableOfRepeats`), while each call is reported with its own name and
  arguments (`Executor.ReportsMatchResults`).
- A saved session is loaded as it was saved exactly when every tool message has its id, and as its
  repair otherwise (`Store.LoadAfterSave`).
- A memory entry is read back as given exactly when it has neither a section sign nor a carriage return
  and fits (`Memory.AddedReadsBackExactly`). Adding keeps the earlier entries exactly when their written
  form is within the cap (`Memory.AddKeepsEarlierEntries`); a text with a section sign can make a later
  add lose one (`Memory.SignsCanLoseAnEntry`).
- Removals are not capped, and a removal that matches nothing can take the file over its cap
  (`Memory.RemovalCanExceedCap`). A file stays within under every removal exactly when its entries,
  written one to a line, fit (`Memory.RemovalsFitExactlyWhen`); and every run that adds the texts of a set
  stays within every cap exactly when each text is compact, that is, no part of it from its start on takes
  more room when its entries are written again (`Memory.CapHoldsExactlyWhen`). Texts without section signs
  are (`Memory.PlainIsCompact`); one with a sign between two entries is exactly if there are two characters of white space around it
  (`Memory.OneSignIsCompactExactlyWhen`).
- `connect` of the WebSocket client returns a resolved promise exactly when an earlier one was resolved or
  the socket is open; so after the first connection a resolved promise says nothing about the socket
  (`WsClient.ConnectIsTruthfulExactlyWhen`, `WsClient.ResolvedPromiseIsKept`,
  `WsClient.ConnectCanResolveWhileClosed`).
- Spans of turn 0, which stands for an unknown turn, end in order exactly when no result falls back past
  an older one (`Telemetry.FirstInFirstOut`).

## Model

First the theorems, file by file; then the operations, each proved equal to the function that the
theorems are about.

| member | source | states |
|---|---|---|
| Transcript.FlattenGroups | qi_agent/context/window.py:18-46 | grouping loses, adds and reorders nothing |
| Transcript.GroupsConcat | qi_agent/context/window.py:27-43 | grouping splits at every message that is not a tool answer |
| Transcript.RegroupSuffix | qi_agent/context/window.py:18-46 | grouping any suffix of groups again gives those groups |
| Transcript.RegroupPrefix | qi_agent/context/window.py:18-46 | the same for a prefix of groups |
| Transcript.PairedIffGroupsComplete | qi_agent/context/window.py:18-46 | reading left to right without groups, every tool call is answered at once and in order, if and only if every group is complete |
| Transcript.PairedConcat | qi_agent/context/window.py:18-46 | a history cut before a non-tool message is paired iff both parts are |
| Window.MessageTokens | qi_agent/context/window.py:49-57 | every message weighs at least one token |
| Window.CutIsLongest | qi_agent/context/window.py:76-86 | the kept suffix fits the budget or is the newest group alone, and every longer suffix exceeds the budget |
| Window.CutIsUnique | qi_agent/context/window.py:76-86 | no other cut has that meaning |
| Window.TrimKeepsWholeGroups | qi_agent/context/window.py:76-98 | system messages all survive, the rest is a suffix of the old groups, grouped as before, after at most an anchor |
| Window.TrimKeepsLongestSuffix | qi_agent/context/window.py:76-98 | kept tokens are at most the larger of budget and newest group, and one more group would exceed the budget |
| Window.TrimTwice | qi_agent/context/window.py:60-98 | trimming twice gives the same list, also when the anchor itself does not fit; the second pass reports a dropped group exactly then |
| Window.TrimKeepsGroups | qi_agent/context/strategies/window.py:25-32 | any property of all groups, and of a lone user message, survives trimming |
| Compressor.SplitAtBoundary | qi_agent/context/compressor.py:84-100 | early and recent part together are the history, the cut falls between groups, and recent is the newest groups |
| Compressor.AssembleShape | qi_agent/context/compressor.py:103-116 | system messages unchanged, then one summary group, then the recent groups unchanged |
| Compressor.AssembleKeepsGroups | qi_agent/context/strategies/compress.py:38-49 | any property of all groups, and of a lone user message, survives summarising |
| AsyncCompressor.NextKeepsInv | qi_agent/context/async_compressor.py:31-101 | every step of every thread keeps: one worker while running, a snapshot is the compression of one accepted request, requests are handed out in increasing order |
| AsyncCompressor.RunIsSafe | qi_agent/context/async_compressor.py:31-101 | over all interleavings at most one compression is in flight and no request's compression is handed out twice |
| AsyncCompressor.SwitchDropsAppended | qi_agent/context/async_compressor.py:57-64 | for a list that was only appended to since the request: switching omits exactly the appended groups, and is allowed iff they are at most `max_growth` |
| AsyncCompressor.SwitchInAnyRun | qi_agent/context/async_compressor.py:31-101 | the same for the snapshot that any interleaving has produced: it is handed out against such a list iff at most `max_growth` groups were appended, and it is the assembly of the list copied at that request |
| ContextManager.ApplyKeepsGroups | qi_agent/context/strategies/compress.py:38-49 | no strategy breaks up a group |
| ContextManager.ChainKeepsGroups | qi_agent/plugins/builtin/context_manager.py:112-126 | no chain, in any order and with any settings, breaks up a group |
| ContextManager.PreStepKeepsGroups | qi_agent/plugins/builtin/context_manager.py:92-126 | whatever the background worker did meanwhile, the rewritten list consists of groups with the property of the input's groups |
| ContextManager.PostLlmKeepsInv | qi_agent/plugins/builtin/context_manager.py:66-88 | a request made after a reply copies only such lists |
| SnapshotSwitch.ChainShrinks | qi_agent/plugins/builtin/context_manager.py:112-126 | how many groups any chain takes away: those that the first window that drops any drops, less its anchor, or all but the recent ones and the summary by the first compression that finds something early |
| SnapshotSwitch.PreStepShrinks | qi_agent/plugins/builtin/context_manager.py:92-126 | the same for a whole pre-step with the worker at any point: by a switch and the rest of the chain, or by the chain with or without compression |
| SnapshotSwitch.SizeAfter | qi_agent/plugins/builtin/context_manager.py:66-126 | after any turns, with any progress of the worker, the list has grown by the groups appended less those taken away |
| SnapshotSwitch.SwitchAfterTurns | qi_agent/context/async_compressor.py:31-101 | from the request over any turns, with any chain and any progress of the worker, to the take: the request's snapshot is handed out iff the groups appended are at most `max_growth` plus those taken away, and it holds none of the appended groups |
| SnapshotSwitch.TrimmingHidesALoss | qi_agent/context/async_compressor.py:57-64 | with `max_growth` 0, one group appended and one trimmed away, the snapshot is handed out and the appended group is lost |
| SnapshotSwitch.CompressionHidesALoss | qi_agent/plugins/builtin/context_manager.py:95-110 | with `max_growth` 0 and no window: the worker finishes between the take and the busy test, the chain compresses once more, and the next take hands out the old snapshot without the appended group |
| AgentLoop.LoopKeepsGood | qi_agent/agents/agent.py:176-289 | for any property of complete groups: every list sent has it, and the history has it up to one trailing unanswered request after a stop or an exception |
| AgentLoop.ChatSendsPairedHistories | qi_agent/agents/agent.py:134-289 | a chat that alone writes to a paired history sends only paired lists, for every sequence of replies, rewrites, mail, exceptions and background timing; what it ends on is paired up to one trailing unanswered message, and paired when it ends by an answer or the turn limit |
| AgentLoop.ChatEndsPairedExactlyWhen | qi_agent/agents/agent.py:176-274 | a chat that alone writes to a paired history ends on one iff no step that it reached kept a request and then had the executor or a listener raise, or the stop test after the tools strike |
| AgentLoop.NextChatStartsPairedExactlyWhen | qi_agent/agents/agent.py:157-274 | the next chat starts from a paired list iff the same |
| AgentLoop.StopInToolEndsUnpaired | qi_agent/agents/agent.py:231-265 | from any paired history, a stop during the first tool call leaves an unpaired one |
| AgentLoop.SessionStaysSettled | qi_agent/agents/agent.py:134-289 | over any number of chats, each begun after the loop of the one before has ended, every group is fully answered or a bare unanswered request |
| SharedHistory.ApartStaysSettled | qi_agent/agents/agent_manager.py:337-394 | over every interleaving of all loops' accesses in which each chat begins when no earlier loop is live: every list sent consists of settled groups, and the history does whenever no loop is live |
| SharedHistory.SafeToBeginExactlyWhen | qi_agent/agents/agent_manager.py:344-378 | for every property from completeness to being settled: all that is sent from the begin of a chat of at least two turns on has it, in every continuation, iff the history has it and no earlier loop is live |
| SharedHistory.PairedFromExactlyWhen | qi_agent/agents/agent.py:92-274 | the same for pairing |
| SharedHistory.LeftoverSpoils | qi_agent/agents/agent.py:179-274 | from any state with a live leftover loop, wherever it is, and a new loop with two turns left, some continuation sends an unsettled list |
| SharedHistory.LateAnswerStandsAlone | qi_agent/agents/agent_manager.py:372-378 | a stop during a tool and a next chat before it ends: user, request, next input and answer are four groups of one message, and are sent so |
| SharedHistory.UninterruptedIsStep | qi_agent/agents/agent.py:179-284 | a turn that no other loop interrupts is the loop's step, for every stop, exception, rewriting and progress of the worker |
| Llm.AccumulatesByIndex | qi_agent/llm.py:194-204 | each index receives its own fragments, however they are interleaved |
| Llm.CallsAreDigests | qi_agent/llm.py:206-214 | the finished calls are one per index that occurred, in increasing order, each spelled by its own fragments |
| Llm.SameContentSameResult | qi_agent/llm.py:169-245 | streams that agree on text, last usage and, per index, last id, last name and concatenated arguments give the same result |
| Llm.SplittingIsInvisible | qi_agent/llm.py:194-204 | cutting a fragment in two anywhere changes nothing |
| Llm.InterleavingIsInvisible | qi_agent/llm.py:194-204 | swapping neighbouring fragments of different indexes changes nothing |
| Executor.DistinctIsCallByCall | qi_agent/tools/executor.py:85-226 | with distinct ids the specification for any ids is call by call: each call gets its own judgement, output and report, and the calls that may run are run once each |
| Executor.DistinctBatch | qi_agent/tools/executor.py:85-226 | so it is for every batch of calls with distinct ids |
| Executor.ReportsMatchResults | qi_agent/tools/executor.py:174-226 | whatever ids repeat, the i-th report has the i-th call itself, with its own mark, and the result that the model gets for its id |
| Executor.TableOfRepeats | qi_agent/tools/executor.py:89-133 | the table of decisions holds each id at its first place with its last judgement |
| Executor.DistinctTable | qi_agent/tools/executor.py:89-133 | with distinct ids the table of decisions is the list of judged calls |
| Executor.RunningInOrder | qi_agent/tools/executor.py:138-151 | the calls started are the judged calls that may run, in call order |
| Executor.RunsExactlyWhen | qi_agent/tools/executor.py:91-142 | a tool runs iff its call is allowlisted and its decision is none, a warning, or an approval answered yes |
| Mailbox.DrainConserves | qi_agent/agents/mailbox.py:122-143 | a drain neither loses nor duplicates a letter under any interleaving |
| Mailbox.PickedAreOldestFirst | qi_agent/agents/mailbox.py:132-143 | the picked letters are of the type asked for, in arrival order, all present ones included |
| Mailbox.ConsumeTakesMessagesThenSteering | qi_agent/context/context.py:225-229 | the message holds all posted letters and then all steering present at the start |
| Mailbox.ConsumeConserves | qi_agent/context/context.py:225-229 | both drains together lose and duplicate nothing |
| Mailbox.RePutKeepsOrder | qi_agent/agents/mailbox.py:139-143 | the letters put back stay in front of everything that arrives during the re-puts iff nothing arrives before any of them |
| Mailbox.RePutKeepsOwnOrder | qi_agent/agents/mailbox.py:139-143 | among themselves they keep their order under any interleaving |
| Mailbox.QuietRePutKeepsOrder | qi_agent/agents/mailbox.py:141-142 | without a put before any of the re-puts the other letters are as before |
| Mailbox.RePutCanReorder | qi_agent/agents/mailbox.py:141-142 | one letter put before any of the re-puts, and it alone, overtakes all the older letters behind it |
| PostOffice.NextKeepsInv | qi_agent/agents/mailbox.py:196-303 | every step keeps the invariant below |
| PostOffice.EveryLetterInOnePlace | qi_agent/agents/mailbox.py:236-303 | over all interleavings each letter is in exactly one of central queue, hand, one inbox, audit list; undeliverable letters and receipts match one to one, in order; receipts cause no receipts |
| PostOffice.RegisteredTargetIsServed | qi_agent/agents/mailbox.py:241-281 | a target that stays registered to one mailbox receives all its letters there, in central-queue order |
| PostOffice.DeliveryLightens | qi_agent/agents/mailbox.py:248-303 | each delivery strictly lowers two per letter and one per receipt in the central queue |
| PostOffice.DeliverAll | qi_agent/agents/mailbox.py:241-303 | without new sends the queue empties, whatever happens to the routes |
| RunProtocol.NextIsSafe | qi_agent/agents/agent_manager.py:337-394 | every step of a manager, worker or stopper keeps the safety invariant |
| RunProtocol.RunReturnsItsOwn | qi_agent/agents/agent_manager.py:337-394 | over all interleavings, leftover workers included, `run` returns only what its own worker produced, and the stopped text only if a stop set the flag after this run cleared it |
| RunProtocol.AloneRunMeansDone | qi_agent/agents/agent_manager.py:337-394 | a run with the context to itself never times out of its wait, done means that its own chat recorded its end, and when its worker and all stops are over it is stuck iff a signal is missing: a `begin_chat` of its own wiped out that of a stop, its chat died before recording, or a stop died behind its flag |
| RunProtocol.StuckForEver | qi_agent/context/context.py:235-252 | a stuck run stays stuck, and the context marked as running, whatever happens but another stop |
| RunProtocol.EveryDoneIsExplained | qi_agent/agents/agent_manager.py:337-394 | over all interleavings a run that finds itself done has its own chat's record, or another thread set the done event after this run cleared the stop flag |
| RunProtocol.StopBetweenBeginsIsLost | qi_agent/agents/agent.py:154 | a schedule in which such a run is stuck by a stop between its two `begin_chat` calls |
| RunProtocol.DeadChatIsStuck | qi_agent/agents/agent.py:154-169 | a schedule in which it is stuck by a listener that raises at the start of the turn |
| RunProtocol.DeadStopIsStuck | qi_agent/context/context.py:156-164 | a schedule in which it is stuck by a listener that raises in the stop |
| RunProtocol.HalfDoneStopFakesDone | qi_agent/context/context.py:156-164 | a schedule in which a half-done stop makes a run done whose chat has recorded nothing |
| RunProtocol.LeftoverWorkerFakesDone | qi_agent/agents/agent_manager.py:344 | a schedule in which the worker left over from a stopped run does so, after the later run cleared the flag that it goes by |
| RunProtocol.SecondRunFakesDone | qi_agent/agents/agent_manager.py:337-345 | a schedule in which a second run that passed the gate does so |
| RunProtocol.MethodsAreUninterruptedSteps | qi_agent/context/context.py:156-303 | the context's methods are the step system's writes with nothing in between |
| Pool.ManagerKeepsBalance | qi_agent/agents/agent_manager.py:346-387 | along every path of `run` a slot is taken once, by the acquire, and given back once, by a failed factory or by the release of the stopped and of the done path, or kept when the thread cannot be started or the grace period elapses |
| Pool.NextKeepsInv | qi_agent/agents/agent_manager.py:158-234 | every step of every manager, worker, stop and subtask keeps the balance of each call with where it stands, and the counter equal to slots taken less slots given back |
| Pool.SlotsAreConserved | qi_agent/agents/agent_manager.py:158-394 | over all interleavings of all conversations and subtasks, whoever has gone, by whichever exit, has given back once what it took once, except a call whose worker outlived the grace period or could not be started and a subtask whose factory threw no `Exception`; the counter is slots taken less given back, within 0 and the limit, and the clamp never hides a mismatch |
| Pool.OwesExactlyWhen | qi_agent/agents/agent_manager.py:158-394 | a caller owes a slot, one, iff it is on the way with it or is one of those exceptions |
| Pool.AllSlotsComeBack | qi_agent/agents/pool.py:60-88 | when all have gone and none of them is such an exception, every slot is free |
| Pool.LostStaysLost | qi_agent/agents/agent_manager.py:366-384 | no step gives back the slot of such an exception |
| Pool.LostSlotsStayLost | qi_agent/agents/pool.py:60-88 | the counter never falls below the number of such callers |
| Pool.StuckKeepsItsSlot | qi_agent/agents/agent_manager.py:369-380 | a stuck call keeps its slot until another stop, whatever else happens anywhere |
| Approval.ResponseTouchesOnlyItsId | qi_agent/gateway/gateway.py:447-467 | a response never affects another pending id; a late one is never accepted and changes nothing |
| Approval.NextKeepsInv | qi_agent/gateway/gateway.py:438-473 | every step of every thread keeps the invariant behind the next row |
| Approval.ApprovalsAreSafe | qi_agent/gateway/gateway.py:783-830 | over all interleavings a request returns the last response accepted for it before it read its answer, an offered choice submitted by its own session, or nothing, and then only after a timeout; pending exactly until it has left; at most 200 resolved |
| Approval.LastAcceptableStands | qi_agent/gateway/gateway.py:447-467 | after any list of responses to a pending id the answer is that of the last one with the owning session and an offered choice, and as before if there is none |
| Approval.FirstStandsExactlyWhen | qi_agent/gateway/gateway.py:464 | the first acceptable response stands iff the last one has its value |
| Approval.ReturnsFirstExactlyWhen | qi_agent/gateway/gateway.py:783-830 | over all interleavings a request that returned an answer returned that of its first accepted response iff the last one accepted before its read has that value |
| Approval.SecondResponseOverwrites | qi_agent/gateway/gateway.py:464 | of two acceptable responses to a pending request the second stands, and the first only if they are equal |
| Store.SaveReplacesAll | qi_agent/storage/sqlite_store.py:184-201 | all three branches leave the session's rows as exactly the encoded messages at 1..n and every other session untouched |
| Store.AppendKeepsNumbering | qi_agent/storage/sqlite_store.py:95-108 | the message goes to the end of its session and every session stays numbered 1..n |
| Store.DeleteKeepsNumbering | qi_agent/storage/sqlite_store.py:373-376 | the session is gone and every other stays numbered |
| Store.LoadAfterSave | qi_agent/storage/sqlite_store.py:184-298 | what is loaded after a save is the repair of what was saved, and it is what was saved iff every tool message has its id; other sessions load as before |
| Store.LoadIsStable | qi_agent/storage/sqlite_store.py:184-298 | saving what was loaded and loading it again gives it back, whatever was stored |
| Store.SettledSurvivesRestart | qi_agent/storage/sqlite_store.py:184-298 | a transcript of settled groups, as every chat leaves it, is loaded as it was saved |
| Repair.RepairOnlyFillsIn | qi_agent/storage/sqlite_store.py:287-298 | on any input every tool message gets an id, and no existing id and no other message changes |
| Repair.RepairTwice | qi_agent/storage/sqlite_store.py:283-298 | repairing twice is repairing once |
| Repair.RepairUndoesLossOfIds | qi_agent/storage/sqlite_store.py:283-298 | stripping every id of a settled transcript with non-empty ids and repairing gives the transcript back |
| Repair.SessionTranscriptsAreRepaired | qi_agent/agents/agent_manager.py:337-394 | every transcript of every run in which each chat begins when no earlier loop is live, stopped, failed, trimmed, summarised or switched, is such a transcript |
| Memory.ParsedAreEntries | qi_agent/storage/memory_store.py:62-64 | parsing yields non-empty stripped entries without section signs |
| Memory.ParseLines | qi_agent/storage/memory_store.py:62-64 | rendered lines in front of anything that starts a new piece parse to their entries |
| Memory.AddKeepsEarlierEntries | qi_agent/storage/memory_store.py:92-105 | for any file and any text, the entries read before stay an unchanged prefix iff their written form is within the cap |
| Memory.AddThenList | qi_agent/storage/memory_store.py:92-105 | for any file and any text, what is read back after an add is what a plain list would hold |
| Memory.AddedReadsBackExactly | qi_agent/storage/memory_store.py:81-105 | for any file and any text a new entry is read back as given behind the old ones iff it has no section sign and no carriage return and everything fits |
| Memory.RemoveThenList | qi_agent/storage/memory_store.py:107-121 | what is read back after a removal is the old entries without the removed text, for any file |
| Memory.RunAgreesWithList | qi_agent/storage/memory_store.py:81-121 | over every sequence of adds and removes of any texts the file parses to a list that is never written; if the texts added are compact its entries fit and it exceeds the cap by at most its newline |
| Memory.RunFromEmptyFile | qi_agent/storage/memory_store.py:81-121 | the same from the empty file |
| Memory.RemovalsFitExactlyWhen | qi_agent/storage/memory_store.py:107-116 | a file stays within the cap under every removal iff its entries, written one to a line, fit |
| Memory.CapHoldsExactlyWhen | qi_agent/storage/memory_store.py:81-116 | every run that adds texts of a set, with any removals, stays within every cap iff each text is compact: no prefix takes more room when its entries are written again |
| Memory.PlainIsCompact | qi_agent/storage/memory_store.py:97-105 | every text without section signs is compact |
| Memory.OneSignIsCompactExactlyWhen | qi_agent/storage/memory_store.py:97-105 | a text of two entries with a section sign between them is compact iff there are at least two characters of white space around the sign |
| Memory.RemovalCanExceedCap | qi_agent/storage/memory_store.py:107-116 | a family of files within the cap that a removal which matches nothing takes over it |
| Memory.SignsCanLoseAnEntry | qi_agent/storage/memory_store.py:97-105 | a text with a section sign can make a later add cut an entry read before |
| WsClient.StepKeepsInv | qi_agent/web/frontend/src/ws.ts:58-268 | every event keeps the invariant of calls, timers, promises and flags |
| WsClient.EveryRunIsSafe | qi_agent/web/frontend/src/ws.ts:87-268 | over every sequence of events: each call id settled at most once and pending until then, at most one reconnect timer and only without a socket, attempts at most 8, delay min(1000·2^k, 30000) after k reconnects since the last reset, waiting between resets at most 91000 |
| WsClient.TotalWaiting | qi_agent/web/frontend/src/ws.ts:225-235 | the exact total of the first k delays |
| WsClient.NoneTwice | qi_agent/web/frontend/src/ws.ts:110-143 | every id issued is pending or settled, never both, and settled only once |
| WsClient.DisposedForGood | qi_agent/web/frontend/src/ws.ts:87-99 | after disposal no call is pending, no timer runs and no socket opens, whatever happens |
| WsClient.ReplacedSocketsDoNotMatter | qi_agent/web/frontend/src/ws.ts:163-189 | deleting all events of a replaced socket from a run changes nothing |
| WsClient.ReplySettlesItsCall | qi_agent/web/frontend/src/ws.ts:301-309 | a reply settles exactly the call it names and touches no other |
| WsClient.ResolvedPromiseIsKept | qi_agent/web/frontend/src/ws.ts:252-268 | once resolved, the promise of `connect` is never replaced |
| WsClient.ConnectIsTruthfulExactlyWhen | qi_agent/web/frontend/src/ws.ts:58-81 | `connect` returns a resolved promise iff an earlier one was resolved or the socket is open; it is truthful iff none was resolved before or the socket is open |
| WsClient.ConnectCanResolveWhileClosed | qi_agent/web/frontend/src/ws.ts:58-81 | after any run in which a socket opened for a waiting `connect` and later closed for any reason, the next `connect` returns a resolved promise while no socket is open |
| Telemetry.CallKeepsInv | qi_agent/plugins/builtin/telemetry_otel.py:366-374 | every bucket is its turn's queue restricted to its step, in the same order |
| Telemetry.ResultKeepsInv | qi_agent/plugins/builtin/telemetry_otel.py:400-418 | the same after a result, by queue or by fallback |
| Telemetry.FirstInFirstOut | qi_agent/plugins/builtin/telemetry_otel.py:366-418 | over every run, spans ended for a turn followed by those still queued are those queued at the start followed by those opened; for turn 0 iff no result falls back past an older span |
| Telemetry.BatchEndsItsOwnSpans | qi_agent/tools/executor.py:174-212 | results in call order end the spans of their own calls and both indexes are as before the batch |
| Events.SortedIsStable | qi_agent/events.py:52-53 | falling priority, and registration order within each priority |
| Events.OrderIsUnique | qi_agent/events.py:52-53 | no other order has that meaning |
| Events.RegistrationOrderWithinPriorities | qi_agent/events.py:44-53 | two registration orders give the same listeners iff they agree within each priority |
| Events.SortedAgain | qi_agent/events.py:52-53 | sorting after each registration is sorting once |
| Transcript.GroupMessages | qi_agent/context/window.py:18-46 | the loop with its open group computes the recursive grouping |
| Window.TrimMessages | qi_agent/context/window.py:60-98 | the newest-first loop, the anchor insertion and both early returns give exactly the longest-suffix trim |
| AsyncCompressor.BackgroundCompressor.Request | qi_agent/context/async_compressor.py:31-43 | a task starts, with a copy of the list, exactly when none is running |
| AsyncCompressor.BackgroundCompressor.TakeIfFresh | qi_agent/context/async_compressor.py:45-64 | the snapshot leaves the field in any case and is returned only if grown by at most `max_growth` groups |
| AsyncCompressor.BackgroundCompressor.Publish | qi_agent/context/async_compressor.py:81-98 | the snapshot becomes the assembled copy, unless there is nothing early or the summariser raised |
| AsyncCompressor.BackgroundCompressor.Finish | qi_agent/context/async_compressor.py:99-101 | the task mark is cleared and the snapshot left alone |
| ContextManager.ContextManagerPlugin.RunChain | qi_agent/plugins/builtin/context_manager.py:112-126 | the loop applies strategies in order until one consumes |
| ContextManager.ContextManagerPlugin.OnPreStep | qi_agent/plugins/builtin/context_manager.py:92-110 | a fresh snapshot, a busy worker or neither decide the list and the chain, with the worker running in between |
| ContextManager.ContextManagerPlugin.OnPostLlm | qi_agent/plugins/builtin/context_manager.py:66-88 | measured usage is kept and a request is made exactly when the chain's compress threshold is met |
| AgentLoop.Agent.RunWaterfall | qi_agent/events.py:88-118 | the handlers rewrite one after the other |
| AgentLoop.Agent.AppendAnswers | qi_agent/agents/agent.py:266-274 | one answer per call, in call order, with the call's id |
| AgentLoop.Agent.RunStep | qi_agent/agents/agent.py:179-284 | one turn with its three stop tests and every place where a handler, a listener, the client or the executor can raise |
| AgentLoop.Agent.RunToolLoop | qi_agent/agents/agent.py:176-289 | the bounded loop ends by answer, stop, exception or turn limit |
| AgentLoop.Agent.Chat | qi_agent/agents/agent.py:134-174 | the input joins the history, the turn is counted once, and the loop runs unless a listener to the start of the turn raises |
| Llm.ChatStream | qi_agent/llm.py:131-245 | the chunk loop gives what the whole stream spells: per index the last id and name and all arguments; it raises exactly on a chunk with neither usage nor choice; the callbacks together are the text |
| Llm.AddFragments | qi_agent/llm.py:194-204 | one delta's fragments are merged in order |
| Llm.Conclude | qi_agent/llm.py:206-245 | calls come in increasing index, and the assistant message agrees with content and calls |
| Executor.Approve | qi_agent/tools/executor.py:85-133 | phase 1 judges each call in order, marks the approved ones, and asks exactly where an allowed call's decision demands it |
| Executor.ApproveOne | qi_agent/tools/executor.py:91-132 | allowlist first, then approval; an approval becomes a mark in the arguments, a refusal a block |
| Executor.RunParallel | qi_agent/tools/executor.py:135-172 | in any completion order each call that may run is run once and its own output collected |
| Executor.Wrap | qi_agent/tools/executor.py:179-203 | the text for the model, case by case |
| Executor.Collect | qi_agent/tools/executor.py:174-226 | one result and one report per call, in call order: the call itself with the table's decision and output |
| Executor.Execute | qi_agent/tools/executor.py:85-226 | for any calls, decisions and completion order, results, events and executed calls are those of a specification by first occurrence and last judgement of each id, every call reporting itself; with distinct ids they are those of the call-by-call specification |
| Mailbox.AgentMailbox.DrainByType | qi_agent/agents/mailbox.py:122-143 | against letters arriving before any queue operation: what is picked and what the inbox holds afterwards |
| Mailbox.AgentMailbox.PutBack | qi_agent/agents/mailbox.py:141-142 | each letter put back stands behind what arrived before its re-put |
| Mailbox.AgentMailbox.ConsumeMailbox | qi_agent/context/context.py:207-229 | two drains become at most one user message |
| PostOffice.Dispatcher.Register | qi_agent/agents/mailbox.py:196-200 | the mailbox is routed and bound to the central queue |
| PostOffice.Dispatcher.Unregister | qi_agent/agents/mailbox.py:202-207 | the route goes and the mailbox is unbound |
| PostOffice.Dispatcher.Put | qi_agent/agents/mailbox.py:219-225 | the letter enters the central queue under a fresh id |
| PostOffice.Dispatcher.SendFrom | qi_agent/agents/mailbox.py:91-100 | refused, and nothing changed, exactly while the mailbox is unbound |
| PostOffice.Dispatcher.TakeNext | qi_agent/agents/mailbox.py:241-246 | the oldest letter is taken in hand |
| PostOffice.Dispatcher.LookUp | qi_agent/agents/mailbox.py:258-276 | the route is read once, at this moment |
| PostOffice.Dispatcher.SettleLetter | qi_agent/agents/mailbox.py:262-290 | the letter goes into the inbox found or into the audit list |
| PostOffice.Dispatcher.SendReceipt | qi_agent/agents/mailbox.py:291-303 | a receipt with the letter's id, type and target goes to its sender, none for a receipt |
| RunProtocol.AgentContext.BeginChat | qi_agent/context/context.py:269-276 | done is cleared and the status running |
| RunProtocol.AgentContext.Stop | qi_agent/context/context.py:156-164 | flag and done are set and the status changes only if running; only the flag if a listener raises |
| RunProtocol.AgentContext.CompleteChat | qi_agent/context/context.py:290-296 | completed and done |
| RunProtocol.AgentContext.FailChat | qi_agent/context/context.py:298-303 | failed and done, with the reason |
| RunProtocol.AgentContext.WaitStopOrDone | qi_agent/context/context.py:248-252 | a stop takes precedence over done |
| Pool.AgentPool.Acquire | qi_agent/agents/pool.py:42-80 | a slot is taken exactly at the first try below the limit, none after the deadline, and a failed factory gives it back |
| Pool.AgentPool.Release | qi_agent/agents/pool.py:82-88 | one slot fewer, clamped at zero |
| Approval.Gateway.Open | qi_agent/gateway/gateway.py:783-789 | the request enters the pending table without an answer |
| Approval.Gateway.Respond | qi_agent/gateway/gateway.py:438-467 | duplicate, unknown, foreign and invalid responses change nothing; a valid one is recorded |
| Approval.Gateway.Wake | qi_agent/gateway/gateway.py:468 | the waiter is woken only after an answer |
| Approval.Gateway.Close | qi_agent/gateway/gateway.py:828-830 | the request leaves the pending table |
| Store.SQLiteStore.InsertAll | qi_agent/storage/sqlite_store.py:195-201 | all rows or a fault at exactly the statement that meets it |
| Store.SQLiteStore.Attempt | qi_agent/storage/sqlite_store.py:169-223 | committed as a whole or rolled back as a whole |
| Store.SQLiteStore.SaveContext | qi_agent/storage/sqlite_store.py:146-223 | the whole list is replaced, or an error with the database unchanged after at most three attempts, the next one only after a busy database |
| Store.SQLiteStore.AppendMessage | qi_agent/storage/sqlite_store.py:95-108 | the numbering of all sessions is kept, one message is added, other sessions are untouched |
| Store.SQLiteStore.DeleteSession | qi_agent/storage/sqlite_store.py:373-376 | one session is gone, the others are untouched |
| Store.SQLiteStore.LoadSession | qi_agent/storage/sqlite_store.py:242-281 | the rows in order, decoded or rebuilt from their columns, with lost ids filled in |
| Repair.RepairToolCallIds | qi_agent/storage/sqlite_store.py:283-298 | the in-place loop computes the recursive repair |
| Memory.MemoryStore.AddMemory | qi_agent/storage/memory_store.py:81-105 | both targets with their limits; duplicates and blanks write nothing |
| Memory.MemoryStore.RemoveMemory | qi_agent/storage/memory_store.py:107-116 | every exact match goes, and the file is rendered anew |
| WsClient.WsClient.Connect | qi_agent/web/frontend/src/ws.ts:58-81 | one held promise is created if needed and returned; a disposed client returns none |
| WsClient.WsClient.Dispose | qi_agent/web/frontend/src/ws.ts:87-99 | timer, promise, calls and socket are given up and the generation moves on |
| WsClient.WsClient.Call | qi_agent/web/frontend/src/ws.ts:110-143 | an id is issued exactly on an open socket, and it was never issued before |
| WsClient.WsClient.CallTimesOut | qi_agent/web/frontend/src/ws.ts:119-127 | only that call is settled |
| WsClient.WsClient.SocketOpened | qi_agent/web/frontend/src/ws.ts:166-173 | the reconnect state is reset and the promise resolved, for the current socket only |
| WsClient.WsClient.SocketMessage | qi_agent/web/frontend/src/ws.ts:175-180 | a reply settles the pending call of its id, for the current socket only |
| WsClient.WsClient.SocketClosed | qi_agent/web/frontend/src/ws.ts:186-216 | all calls are rejected; the code, the attempts and the flags decide whether to try again |
| WsClient.WsClient.TimerFires | qi_agent/web/frontend/src/ws.ts:228-233 | a new socket opens unless disposed or told not to |
| WsClient.WsClient.RejectPending | qi_agent/web/frontend/src/ws.ts:244-250 | every pending call is settled once, its timeout cleared, in issue order |
| Telemetry.TelemetryPlugin.OnToolCall | qi_agent/plugins/builtin/telemetry_otel.py:366-374 | the span joins both indexes and the invariant is kept |
| Telemetry.TelemetryPlugin.OnToolResult | qi_agent/plugins/builtin/telemetry_otel.py:400-418 | the record leaves both indexes and no empty list stays behind |
| Events.EventBus.On | qi_agent/events.py:44-53 | after any registrations the list is the stable sort of all of them |
| Events.EventBus.Waterfall | qi_agent/events.py:88-118 | the data passes through the listeners by falling priority |
| Events.EventBus.Bail | qi_agent/events.py:120-134 | the first decision wins and no later listener is asked |

## Left out

- The LLM, HTTP, WebSocket and SQLite themselves, JSON text (only its length, and that encoding a message is injective), logging, printing, timestamps and durations.
- Other pre-step plugins are one kind of handler that may rewrite anything but the non-system messages; the skill plugin's own marker filtering is not modelled.
- The A2A channel, `send_direct` and `AgentMailbox.drain`: the first is not implemented, the second bypasses the dispatcher, the third has no interleaving of its own.
- The phase field of a context and the memory extraction after a run: nothing in the protocols reads them.
- The messages that a subtask sends to its parent when it ends; the subtask appears as a user of slots.
- Exceptions that are not of class `Exception` in the thread that calls `run`, such as an interrupt from the keyboard; in a subtask they are modelled.
- A thread that cannot be started, of the background compressor: of the worker of `run` it is modelled.
- Two live loops in the waterfall at once: their handlers interleave one by one, so no request of the one falls between the take and the busy test of the other, and a handler sees the list as it was read.
- Exceptions inside the executor's pool: a tool is a total function of its call. An exception of the executor as a whole is an exit of the chat loop.
- Callbacks of the WebSocket client's status handlers into the client itself, and a constructor of the browser's socket that throws.
- Telemetry.BatchEndsItsOwnSpans: covers all turns but turn 0, which no chat has; for turn 0 the order is that of `Telemetry.FirstInFirstOut`.
- Pool.AgentPool.Acquire: the counter is handed in before each try instead of being changed by other objects; the interleavings are those of the step system.
- User interface, process management, permission tables, regular expressions, evaluation suites and plugin registration: they would only add easy members.
