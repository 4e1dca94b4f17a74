# Corvus, verified

A Dafny model of Corvus, the mediator between agent VMs and server services, and proofs about its
protocols: turn coordination, policy decisions, correlation of messages with turns, routing,
elevation and replay, the memory store, rate limits, behavioral counters, stream assembly and the
node's outbound queue.

Check everything with `dafny verify dfyconfig.toml`.

## How it is modelled

- An object whose methods update its fields is a class. Each method is proved against a function of
  the old state, and its contract also says in the object's own fields what that comes to. The laws are
  lemmas about those functions.
- A protocol is a state, a total step function and a run over a list of actions. An action that its
  process cannot take leaves the state as it is, so a theorem about every list of actions is a theorem
  about every interleaving.
- Database tables are sequences or maps of rows. Ids drawn with `uuid4` are fresh numbers, and ISO
  timestamps are integers, whose order is the order of time.
- Engine names and abort reasons are enumerations.
- The clock is a parameter, one per reading. So are the outcomes of writes and requests, `fnmatch`, the
  encryption of a text, and the distance of a text from a query.
- A mutation under the file lock, a routed message, a management request and a flush are one step each.
  The loop and the engines interleave step by step.

## Map

| file | what it holds |
|---|---|
| `Coordinator.dfy`, `TurnProtocol.dfy` | the coordinator file and the processes of one turn |
| `TurnSafety.dfy`, `TurnTools.dfy`, `TurnResults.dfy` | what every run of a turn keeps |
| `TurnCompletion.dfy`, `TurnAbort.dfy`, `TurnReasons.dfy` | how a turn can end, and why it was aborted |
| `PolicyRules.dfy`, `PolicyDecision.dfy`, `PolicyEngine.dfy`, `PolicyLaws.dfy` | rules, the combination of matches, the engine, its laws |
| `Correlation.dfy`, `Sessions.dfy`, `Router.dfy` | turns, sessions and the router |
| `Journal.dfy`, `Server.dfy` | machines that keep a log; where decisions, elevations, operations and sessions come from |
| `Replay.dfy`, `ReplayLaws.dfy`, `ReplayOrder.dfy`, `Elevations.dfy` | elevations, replay and the offline queue |
| `MemoryStore.dfy`, `MemorySearch.dfy`, `MemoryService.dfy` | the memory tables, semantic search, the service |
| `MemoryLaws.dfy`, `MemoryHistory.dfy` | laws over whole runs; what a query answers, told from the requests |
| `RateLimit.dfy`, `Behavioral.dfy` | both rate limiters, bucketed counters |
| `Stream.dfy`, `StreamLaws.dfy`, `StreamDelivery.dfy` | stream assembly, its meaning, and the way to engine 3 |
| `Bus.dfy` | the node's outbound queue |
| `Common.dfy` | filters and stable sorts over sequences |

## Where a stronger claim is false

Each of these has a counterexample and an exact condition.

- ABORTED is not final, because `set_phase` overwrites it: `AbortedTurnCanComplete`, `AbortFinalIff`.
- Purging turn state can be seen by a `user_query` that is not user input: `UserQueryCanTell`,
  `AnswersDifferIff`.
- Semantic search can miss a live record, because it filters after the nearest-neighbour search:
  `SemanticCanMiss`, `SemanticExactIff`.
- A sweep can change a semantic answer: `SweepCanChangeSemantic`, `SweepKeepsSemanticIff`. It can only
  append to it: `SweepExtendsSemantic`.
- A sweep can change the answer to deleting a record: `SweepCanChangeDelete`, `SweepChangesDeleteIff`.
- Results that come after engine 3 stopped waiting can be recorded: `LateResultsAreTaken`,
  `BatchesAnsweredOnce`.
- A message posted directly can overtake queued ones: `DirectCanOvertake`, `InLineIff`.
- A replayed operation need not be in the name of the elevated message: `AttachedCanDiffer`, `ReplayStaysIff`.
- Denying overwrites an approval that has already been replayed: `DeniedAfterReplay`, `ApprovalStandsIff`.
- Putting a failed message back on a full queue loses the newest one: `PutBackCanLose`, `OrderKept`.
- Waiting for the advertised retry time is not always enough: `RetryAfterCanFail`, `RetryAfterSufficesIff`.

## Model

| member | source | states |
|---|---|---|
| `Coordinator.TurnFile.SetPhase` | src/corvus/runtime/coordinator.py:73-78 | any phase, also a terminal one, is overwritten; the fields that are given are stored, and no other changes |
| `Coordinator.TurnFile.MergeFields` | src/corvus/runtime/coordinator.py:80-84 | the given keys have their new values, all other keys and the rest of the document are kept |
| `Coordinator.TurnFile.MarkReady` | src/corvus/runtime/coordinator.py:90-97 | the engine is listed besides those listed before, once however often it reports |
| `Coordinator.TurnFile.Abort` | src/corvus/runtime/coordinator.py:136-146 | a terminal phase is left alone with all its fields; any other becomes ABORTED with the reason and the fields that are given |
| `Coordinator.TurnFile.PublishToolBatch` | src/corvus/runtime/coordinator.py:159-166 | the batch replaces the previous one and clears its results |
| `Coordinator.TurnFile.CompleteToolBatch` | src/corvus/runtime/coordinator.py:168-182 | results are taken exactly for the pending batch of that id; otherwise nothing changes |
| `TurnSafety.RunKeeps` | src/corvus/runtime/loop.py:33-76 | the inductive invariant tying phase, program counters and events together holds in every state of every interleaving |
| `TurnSafety.DoneMeansFullTurn` | src/corvus/runtime/engines/engine3.py:40-112 | the phase is DONE if and only if dispatch, accepted query, successful end of engine 3's LLM loop, its answer to that query, accepted response with that very text and completion happened, in this order and once each. The query is the text the user gave when the gateway picked up the turn, or the greeting for an empty one; a successful end means that the last of at most eight replies is the text, without tool calls, and each reply before it asked for tools and got its round; the file then names that turn and that text |
| `TurnSafety.QueryIsUsers` | src/corvus/runtime/engines/engine2.py:37-72 | in every run the query the gateway submits, has accepted and writes to the file is the text the user gave when it picked up the turn, or the greeting for an empty one |
| `TurnSafety.DoneIsFinal` | src/corvus/runtime/coordinator.py:73-146 | after DONE no continuation changes the phase, the turn, the response text or the events |
| `TurnSafety.LoopSuccessMeansDone` | src/corvus/runtime/loop.py:33-76 | the loop reports success only for a turn that is DONE |
| `TurnTools.TranscriptPairsCalls` | src/corvus/runtime/engines/engine3.py:67-100 | in every run each assistant message with tool calls is followed by one tool message per call of the batch published for it, in order and with the published ids |
| `TurnResults.TranscriptCarriesOutcomes` | src/corvus/runtime/engines/engine1.py:49-75 | in every run the tool message for a call carries what engine 1 got when it ran that very call of that batch |
| `TurnTools.BatchesAnsweredOnce` | src/corvus/runtime/coordinator.py:168-182 | in every run a batch is completed at most once, and results offered for a batch are taken if and only if it is the one in the file, was published and has not been answered; otherwise the file stays as it is |
| `TurnTools.SupersededForGood` | src/corvus/runtime/coordinator.py:159-182 | results for a batch whose place another one has taken are refused in every continuation |
| `TurnTools.RequestsBounded` | src/corvus/runtime/engines/engine3.py:40-105 | in every run engine 3 sends at most eight LLM requests, one per finished tool round and at most one more |
| `TurnCompletion.EveryScriptCompletes` | src/corvus/runtime/engines/engine3.py:34-112 | from every fresh turn, for every text, every script of at most seven tool rounds with any calls and outcomes, and every answer, some run plays exactly these rounds and ends in DONE with that answer; the loop reports success and every process has left |
| `TurnCompletion.EighthRoundAborts` | src/corvus/runtime/engines/engine3.py:101-105 | every script of eight tool rounds can be played, and then the turn is aborted for this reason without a ninth request, and every process has left |
| `TurnCompletion.FailedRequestAborts` | src/corvus/runtime/engines/engine3.py:57-60 | after every script of at most seven rounds the LLM can fail; then the turn is aborted for this reason, the loop reports failure and every process has left |
| `TurnCompletion.EveryReasonOccurs` | src/corvus/runtime/loop.py:54-66 | from every fresh turn each of the nine reasons can come to abort it |
| `TurnReasons.AbortNamesCause` | src/corvus/runtime/engines/engine2.py:32-113 | in every run an aborted turn names a reason, and the timeout, refusal or failure that the reason stands for has happened; the limit on tool rounds is only named after eight of them |
| `TurnReasons.GivingUpIsWritten` | src/corvus/runtime/coordinator.py:136-146 | in any state a process that gives up leaves a finished turn as it is, and writes ABORTED with its reason and its turn, and nothing else, for any other |
| `TurnReasons.DispatchIsEarned` | src/corvus/runtime/loop.py:38-52 | in every run a turn is dispatched, and anything further happens, only after a successful handshake and after engines 2 and 3 have reported |
| `TurnAbort.AbortFinalIff` | src/corvus/runtime/coordinator.py:73-146 | an aborted turn stays aborted in every continuation if and only if no process is left that may write a phase |
| `TurnAbort.AbortedTurnCanComplete` | src/corvus/runtime/coordinator.py:73-78 | a run in which the loop aborts and reports failure and the turn still reaches DONE |
| `TurnAbort.LateResultsAreTaken` | src/corvus/runtime/coordinator.py:168-182 | a run in which results are recorded after engine 3 has timed out on them, aborted the turn and exited |
| `PolicyRules.RuleStore.Reload` | src/corvus/policy/rules.py:47-48 | the rules in use are those of the table, by descending priority |
| `PolicyRules.RuleStore.AddRule` | src/corvus/policy/rules.py:53-56 | the rules in use are this one and all others but the former one of its id, by descending priority; the table row keeps its creation time |
| `PolicyRules.RuleStore.DeleteRule` | src/corvus/policy/rules.py:58-61 | exactly the rule of that id goes, and is reported exactly if there was one |
| `PolicyRules.RuleStore.Evaluate` | src/corvus/policy/rules.py:233-270 | by descending priority, exactly one match per rule that covers the request; each match says whether the facts meet the rule's condition in every field, and if not, names the first field in order that fails |
| `PolicyRules.AppliesMeans` | src/corvus/policy/rules.py:77-136 | a rule applies exactly if every part of subject, target and action that it gives fits the request |
| `PolicyRules.ConditionsMean` | src/corvus/policy/rules.py:138-231 | a condition passes exactly if the facts meet each of its fields, written out one by one with the bounds on signals; a failure names the first unmet field |
| `PolicyDecision.GroupByPriority` | src/corvus/policy/combiner.py:36-38 | the dictionary holds for each priority its matches in their order, and has no other key |
| `PolicyDecision.SortedDescending` | src/corvus/policy/combiner.py:40-40 | the same keys, strictly descending |
| `PolicyDecision.FirstWhere` | src/corvus/policy/combiner.py:44-46 | the first match of a kind, if there is one |
| `PolicyDecision.DecideGroup` | src/corvus/policy/combiner.py:41-85 | within one priority a deny beats an allow, an allow beats an elevation, and the steps logged name the rule that settled it |
| `PolicyDecision.Metadata` | src/corvus/policy/combiner.py:98-106 | the first non-null value of every key, and whether a quota failed |
| `PolicyDecision.DefaultDecision` | src/corvus/policy/combiner.py:89-96 | when nothing is decisive, deny with every match reported |
| `PolicyDecision.Settle` | src/corvus/policy/combiner.py:45-86 | the decision of the deciding group is the outcome for all matches |
| `PolicyDecision.Combine` | src/corvus/policy/combiner.py:25-96 | the loop over groups computes the declarative outcome: allow if and only if some allow has no deny at its priority or above and no elevation above; elevate if and only if some elevation has no deny or allow at its priority or above; else deny. It reports exactly the deciding group and a trace that explains it |
| `PolicyEngine.Evaluate` | src/corvus/policy/engine.py:19-76 | allowed if and only if the user may use the agent, some rule of the store covers the request and is satisfied in every field, no denying rule of its priority or above is, and no rule above asks for elevation; elevated if and only if some rule asks for it and none of its priority or above allows or denies; with the code for a quota, the precheck's own trace, the deciding matches, and the facts handed on in the metadata |
| `PolicyEngine.RulingMeans` | src/corvus/policy/combiner.py:25-106 | the outcome for the matches is what the rules themselves say about the facts, and so is its code |
| `PolicyLaws.HistoriesDecideAlike` | src/corvus/server/db.py:302-332 | two histories of rule changes with the same final rules give the same decision and code for all facts |
| `PolicyLaws.AddedDenyOnlyDenies` | src/corvus/policy/combiner.py:36-96 | one more deny rule keeps the decision or turns it into deny |
| `PolicyLaws.LowerMatchesIrrelevant` | src/corvus/policy/combiner.py:36-106 | matches below the deciding priority change neither decision nor code nor what is reported |
| `PolicyLaws.LowerRulesIrrelevant` | src/corvus/policy/rules.py:233-270 | rules below the deciding priority may come and go without changing decision or code |
| `Correlation.CorrelationStore.PurgeExpired` | src/corvus/server/correlation.py:22-24 | exactly the turns idle past the timeout go |
| `Correlation.CorrelationStore.RegisterUserQuery` | src/corvus/server/correlation.py:26-37 | the turn starts at depth zero for its agent and user, and all others are kept unless idle past the timeout |
| `Correlation.CorrelationStore.Validate` | src/corvus/server/correlation.py:39-78 | accepted exactly if the message needs no turn, or joins a turn of its agent that is not idle past the timeout and has room, or is a query on an unknown turn; refused as expired exactly for an idle turn; a joining message raises the depth by one and renews the activity, an idle turn goes, and no other live turn changes |
| `Correlation.TableIsRight` | src/corvus/server/correlation.py:39-78 | for every table and message exactly these turns change: a joined one is renewed one deeper and idle ones go, an idle one that is spoken of goes alone, and otherwise none |
| `Correlation.JoinsIff` | src/corvus/server/correlation.py:39-78 | in every run a message joins a turn exactly if that turn was opened for its agent, has been kept active, and has had fewer messages than the maximal depth |
| `Correlation.ExactlyMaxDepthJoin` | src/corvus/server/correlation.py:39-78 | of any timely series of messages to a new turn exactly as many as the maximal depth are accepted, and every later one is refused |
| `Correlation.PurgingIsInvisible` | src/corvus/server/correlation.py:22-78 | over every run with a clock that does not run backwards, purging eagerly or never gives the same live turns and accepts the same messages other than user queries, and a refusal differs only in its code |
| `Correlation.AnswersDifferIff` | src/corvus/server/correlation.py:51-62 | for any message the two answers differ if and only if the purging store has dropped a turn that the other still holds |
| `Correlation.UserQueryCanTell` | src/corvus/server/correlation.py:51-62 | a run that registers direct user input only, after which a user query is accepted by one store and refused by the other |
| `Correlation.TurnsAdmitBoundedChains` | src/corvus/server/correlation.py:26-78 | in every run each registration admits at most the maximal depth of messages, each of the registering agent and within the timeout of the activity before; the stored depth is their number |
| `Sessions.ValidToken` | src/corvus/server/session.py:38-49 | a session is returned only if it exists and has not expired |
| `Sessions.SessionManager.ValidateToken` | src/corvus/server/session.py:38-49 | the session of a known, unexpired token, and nothing otherwise |
| `Sessions.SessionManager.ValidateConnection` | src/corvus/server/session.py:51-53 | the session of the token bound to the connection, under the same conditions |
| `Sessions.SessionManager.UnbindConnection` | src/corvus/server/session.py:20-21 | the connection has no token afterwards, and others keep theirs |
| `Sessions.SessionManager.CreateSession` | src/corvus/server/session.py:33-36 | a fresh token for a session that lasts the configured time |
| `Sessions.SessionManager.BindConnection` | src/corvus/server/session.py:17-18 | from now on the connection speaks with this token, every other one with its own |
| `Router.MessageRouter.Shake` | src/corvus/server/handshake.py:45-97 | a session is opened, bound to the connection, and the VM made reachable on it, if and only if hash and engines agree with the manifest registered now; otherwise nothing changes |
| `Router.MessageRouter.RegisterAgentManifest` | src/corvus/management/api.py:669-695 | from now on exactly the handshakes that match this manifest are accepted for the agent, and others as before |
| `Router.MessageRouter.CheckSession` | src/corvus/server/router.py:88-129 | true exactly when the connection's session exists, has not expired and is of the message's agent and VM; or the connection has no such live session and the carried token's session is |
| `Router.MessageRouter.Decide` | src/corvus/server/router.py:154-154 | decision and error code are those of the current rules for the message's own agent and type |
| `Router.MessageRouter.Conclude` | src/corvus/server/router.py:155-244 | the decision is logged before anything happens; an elevation is created exactly when elevating, memory touched exactly when allowing a memory message, and the answer names the refusal |
| `Router.MessageRouter.Admit` | src/corvus/server/router.py:88-149 | which refusal is answered, none exactly for an authentic message, and what the checks leave in the turn table |
| `Router.MessageRouter.Handle` | src/corvus/server/router.py:73-279 | the answer, case by case: none for a handshake, session refused exactly without a live session of the message's own agent and VM, correlation refused or expired exactly without a turn to join, and else what the policy decides; and by the answer, what is logged, that an elevation with the message is filed exactly when one is asked for, and that direct user input opens its turn |
| `Router.ReplyIsRight` | src/corvus/server/router.py:88-279 | for every state and message the answer is that one, told from sessions, connections, turns and the policy |
| `Router.EffectsAreRight` | src/corvus/server/router.py:73-244 | for every state and message the log, the elevations and the turns change as the answer says, and nothing else does |
| `Router.RequestsMean` | src/corvus/server/session.py:17-21 | a disconnection, a change of the rules and the registration of a manifest change exactly that |
| `Router.DeskRequestsMean` | src/corvus/management/api.py:1324-1339 | a denial changes exactly the status of that elevation, and a sweep exactly those of the overdue pending ones |
| `Router.DisconnectedNeedsToken` | src/corvus/server/session.py:20-21 | after a disconnection a message on that connection is entitled only by a live session of its own token |
| `Router.MessageRouter.ApproveElevation` | src/corvus/management/api.py:1255-1322 | approving an elevation is the step of the state machine: its memory operation, if the replay performs one, and then the approval are logged |
| `Router.MemoryIffAnswered` | src/corvus/server/router.py:233-244 | memory is touched for a routed message exactly when it is answered with a memory result |
| `Server.DecisionsAreAuthentic` | src/corvus/server/router.py:88-155 | every decision logged in any run was made, by the very action that logged it, for a message whose session existed, had not expired and was of its agent and VM, and which needed no turn or joined one of its agent; under the rules in force then |
| `Server.RoutedAfterAllow` | src/corvus/server/router.py:154-244 | every routed memory operation of any run directly follows its own allow decision, and one action made that decision for such a message and performed the operation |
| `Server.RoutedWasGranted` | src/corvus/server/router.py:154-244 | every routed memory operation of any run was granted by a rule in force, in every field of its condition, with none of its priority or above against it |
| `Server.ElevationsAreDecided` | src/corvus/server/router.py:179-210 | every elevation of any run was created on a logged decision to elevate its message |
| `Server.ReplaysAreApproved` | src/corvus/management/api.py:1260-1304 | every replayed memory operation of any run was performed by the action that approved its elevation, while pending and unexpired, is followed by the approval in the log, and is the elevated message or what came attached to a grant request |
| `Server.MemoryProvenance` | src/corvus/server/router.py:73-244 | every memory operation of any run was performed by an action that routed a message with a live session of its agent and VM and a turn, and had it allowed; or by one that approved in time an elevation which such a message, asking for this very operation, had caused |
| `Server.SessionsFromHandshakes` | src/corvus/server/handshake.py:65-97 | every session of any run was opened by a handshake with the hash registered for its agent at that time and no engine outside that manifest |
| `Server.DecisionsFollowHandshakes` | src/corvus/server/router.py:88-155 | whatever the policy decided on in any run came after an accepted handshake of the message's own agent and VM, whose session had not expired |
| `Server.ReplayedOnce` | src/corvus/memory/elevation_replay.py:118-157 | no two memory operations of a run are for the same elevation |
| `Replay.AgentTransport.Unbind` | src/corvus/server/transport.py:26-30 | exactly the VMs bound to the connection become unreachable |
| `Replay.AgentTransport.BindAgent` | src/corvus/server/transport.py:23-24 | the VM can be reached exactly if this connection is open, and every other VM as before |
| `Replay.AgentTransport.RegisterWriter` | src/corvus/server/transport.py:20-21 | besides those reachable before, exactly the VMs bound to this connection can be reached |
| `Replay.AgentTransport.Deliver` | src/corvus/server/transport.py:39-52 | true exactly when the VM's connection is open and the write works, and then the message was handed over once |
| `Replay.PendingReplayQueue.Enqueue` | src/corvus/server/pending_replay.py:22-45 | one undelivered row is added |
| `Replay.PendingReplayQueue.FlushForVm` | src/corvus/server/pending_replay.py:47-86 | the connection receives the letters of the first rows of the VM's backlog, oldest first and as many as reported, and the rest is kept; all these writes worked, and something is kept only if the VM is away or the next write fails |
| `Replay.ReplayService.Post` | src/corvus/memory/elevation_replay.py:209-220 | handed over exactly if the VM can be reached and the write works; else one row is queued if there is a queue, and only otherwise is the letter lost |
| `Replay.ReplayService.NotifyGrantCreated` | src/corvus/memory/elevation_replay.py:240-284 | one notice for the elevated message's VM, saying whether the response was delivered; none for a message without an agent |
| `Replay.ReplayService.ReplayAfterApproval` | src/corvus/memory/elevation_replay.py:118-207 | which of the four outcomes occurs, that memory is touched only in the last and with the elevated message or the attached one, which letters are produced for whom, whether the response is reported delivered, and that "queued" is reported exactly when something was not delivered |
| `ReplayLaws.NothingLost` | src/corvus/memory/elevation_replay.py:157-220 | in every run each message a replay produced was handed over once or waits in exactly one row; only a server without a queue loses any |
| `ReplayLaws.FlushEmpties` | src/corvus/server/pending_replay.py:47-86 | in every run, flushing a VM that can be reached while writes work leaves nothing waiting for it and hands over everything that was |
| `ReplayLaws.DeliveredFirst` | src/corvus/server/pending_replay.py:47-86 | in every run with increasing creation times the delivered rows of a VM are its first ones |
| `ReplayLaws.EnqueueKeepsOrderIff` | src/corvus/server/db.py:1110-1151 | a new row keeps that order if and only if no younger row of its VM was delivered |
| `ReplayLaws.FlushKeepsOrder` | src/corvus/server/pending_replay.py:54-64 | a flush, wherever it stops, never delivers a row while an older one of the VM waits |
| `ReplayLaws.FlushTouches` | src/corvus/server/db.py:1141-1159 | a flush changes no row of another VM, and of its own rows only the delivery of undelivered ones |
| `ReplayOrder.InLineIff` | src/corvus/memory/elevation_replay.py:157-220 | over every run with a queue and increasing creation times, what a VM has received followed by what waits for it is what was produced for it, in order, as long as nothing is posted directly to it while letters wait; for letters produced once, only then |
| `ReplayOrder.FlushKeepsLine` | src/corvus/server/pending_replay.py:47-86 | a flush of any VM, wherever it stops, changes for no VM the order of what it has received followed by what waits |
| `ReplayOrder.DirectCanOvertake` | src/corvus/memory/elevation_replay.py:161-170 | a run in which a VM receives the letters of a later approval before those of an earlier one |
| `Elevations.ElevationApi.ApproveElevation` | src/corvus/management/api.py:1255-1322 | approved exactly when pending and unexpired, otherwise refused as missing, settled or too late; only when approved is anything replayed |
| `Elevations.ApproveMeans` | src/corvus/management/api.py:1255-1322 | a pending elevation is approved before its expiry and expires from then on, no other changes, and an operation is performed exactly if it is approved, a grant is at hand or asked for, and there is something to replay |
| `Elevations.ElevationApi.CreateElevation` | src/corvus/server/db.py:1035-1062 | a pending elevation under a fresh id |
| `Elevations.ElevationApi.DenyElevation` | src/corvus/management/api.py:1324-1339 | any status is overwritten |
| `Elevations.ElevationApi.SweepOnce` | src/corvus/server/elevation_sweeper.py:41-46 | exactly the pending ones at or past their expiry expire, as many as reported, and none is overdue afterwards |
| `Elevations.NeverPendingAgain` | src/corvus/server/db.py:1082-1108 | over any run no elevation returns to pending or changes its message or expiry |
| `Elevations.ReplayedAtMostOnce` | src/corvus/management/api.py:1255-1339 | over any run each elevation is approved at most once and replayed at most once, only on an approval before its expiry, with its own message |
| `Elevations.ApprovalStandsIff` | src/corvus/management/api.py:1324-1339 | an approved elevation stays approved if and only if nobody denies it |
| `Elevations.DeniedAfterReplay` | src/corvus/management/api.py:1324-1339 | a run that ends denied although the memory operation was performed |
| `Elevations.ReplayStaysIff` | src/corvus/memory/elevation_replay.py:33-42 | an operation replayed in any run is in the name and on the memory of the elevated message if and only if that is a memory message or the attached request names both alike |
| `Elevations.AttachedCanDiffer` | src/corvus/memory/elevation_replay.py:33-42 | a run whose replayed operation names another source or another memory |
| `MemoryStore.IndexAgrees` | src/corvus/server/db.py:863-914 | in every run the embedding table has one entry, with the record's text, for exactly the records that are not soft-deleted |
| `MemoryStore.QueryMeans` | src/corvus/server/db.py:924-967 | a key or list query answers with at most the limit of live records of the agent, namespace and key, newest first and none twice, and leaves one out only for as many that are no older |
| `MemoryStore.SweepInvisible` | src/corvus/memory/sweeper.py:49-105 | key queries, list queries and the active count answer alike with and without a sweep, at its time and later |
| `MemoryStore.SweepsInvisible` | src/corvus/memory/sweeper.py:49-105 | over every run, whatever is written and deleted in between, leaving out the sweeps changes no answer to a key or list query and no active count from the last of them on |
| `MemoryStore.SweepChangesDeleteIff` | src/corvus/server/db.py:1012-1033 | a sweep changes the answer to a deletion if and only if the record has expired |
| `MemoryStore.SweepCanChangeDelete` | src/corvus/server/db.py:1012-1033 | an expired record that can be deleted before a sweep and is not found after it |
| `MemorySearch.SemanticSound` | src/corvus/memory/vec_store.py:49-81 | only live records of the agent and namespace, nearest first, none twice, within the limit |
| `MemorySearch.ExactMeans` | src/corvus/memory/vec_store.py:49-81 | the exact answer used for comparison: the nearest entries of live records of the agent and namespace, none twice, and no other such entry is nearer |
| `MemorySearch.SemanticExactIff` | src/corvus/memory/vec_store.py:58-78 | equal to searching the agent's own entries if and only if the last entry of the exact answer stands among the fetched nearest entries of the whole table |
| `MemorySearch.DepthIsPlace` | src/corvus/memory/vec_store.py:58-78 | the depth that this condition speaks of is the place of the n-th qualifying entry, with all others above it not qualifying |
| `MemorySearch.CrowdIsReachable` | src/corvus/server/db.py:863-914 | the store of the two counterexamples below is what eleven writes leave |
| `MemorySearch.SemanticExactWhenSmall` | src/corvus/server/db.py:969-991 | equal to it whenever the table has no more entries than are fetched |
| `MemorySearch.SweepExtendsSemantic` | src/corvus/memory/sweeper.py:72-105 | a sweep can only append to a semantic answer |
| `MemorySearch.SweepKeepsSemanticIff` | src/corvus/memory/sweeper.py:72-105 | a sweep leaves a semantic answer alone if and only if the answer is full or no qualifying entry moves up into the nearest ones |
| `MemorySearch.SemanticCanMiss` | src/corvus/memory/vec_store.py:58-78 | after eleven writes, ten nearer entries of another agent hide the only live record |
| `MemorySearch.SweepCanChangeSemantic` | src/corvus/memory/sweeper.py:72-105 | sweeping them makes the record appear |
| `MemoryService.Database.Create` | src/corvus/server/db.py:863-914 | record and embedding are added under one fresh id |
| `MemoryService.Database.SoftDelete` | src/corvus/server/db.py:1012-1033 | found exactly when the record of that id, agent and namespace is not deleted; its embedding goes |
| `MemoryService.Database.HardDeleteAll` | src/corvus/memory/sweeper.py:83-85 | the loop removes exactly the listed ids |
| `MemoryService.Database.SweepOnce` | src/corvus/memory/sweeper.py:49-105 | the two loops of single deletions together remove exactly the records past their expiry and the tombstones past the retention, with their embeddings, and the two counts are the numbers of such records |
| `MemoryService.Service.ValidateTarget` | src/corvus/memory/service.py:350-402 | the first of the four target faults, or none of them |
| `MemoryService.Service.Write` | src/corvus/memory/service.py:84-180 | succeeds if and only if agent and namespace exist and belong together, the source is the agent or has a grant, size and number of live records are within the quota in force, and a key is there if contents are encrypted; the new record and its embedding are written out, with the expiry; a failure names the first fault and changes nothing |
| `MemoryService.CountsActive` | src/corvus/server/db.py:993-1010 | the number held against the quota is that of the live records of the agent and namespace |
| `MemoryService.Service.Delete` | src/corvus/memory/service.py:259-306 | succeeds if and only if the source may use that memory and the record is there and not deleted; a failure names the first fault and changes nothing |
| `MemoryService.Service.SetQuota` | src/corvus/server/db.py:824-860 | the quota in force is this one for that agent and namespace, and the previous one for every other pair |
| `MemoryLaws.QuotaHolds` | src/corvus/memory/service.py:100-165 | in every run of writes, deletions, sweeps, quota changes and passing time, an agent's active records in a namespace never outnumber the largest quota in force |
| `MemoryLaws.CurrentQuotaHolds` | src/corvus/memory/service.py:100-165 | in every run in which the quota is never lowered they never outnumber the current one |
| `MemoryHistory.LiveIffStands` | src/corvus/memory/service.py:84-306 | in every run the live records are exactly those that an accepted write left, that have not expired, and that no permitted request has deleted since, whatever was swept |
| `MemoryHistory.QueryAnswers` | src/corvus/memory/service.py:182-257 | in every run a key or list query answers with such records only, newest first, and leaves one out only for as many that are no older |
| `MemoryLaws.OthersCannotTouch` | src/corvus/memory/service.py:350-402 | in every run, requests of others without a grant never change the answer to a key or list query of an agent's memory |
| `MemoryLaws.OthersOnlyCutSemantic` | src/corvus/memory/vec_store.py:49-81 | in every run they leave the exact answer to a semantic query alone, and the answers given before and after them are initial parts of it |
| `SlidingWindow.Limiter.Allow` | src/corvus/management/rate_limit.py:17-28 | the pruning loop keeps exactly the hits of the window and answers by their number |
| `SlidingWindow.Limiter.RetryAfterSeconds` | src/corvus/management/rate_limit.py:30-38 | the advertised wait, at least one second |
| `SlidingWindow.AnswersAsReference` | src/corvus/management/rate_limit.py:17-28 | every call of every run is answered as by a reference that keeps all accepted times |
| `SlidingWindow.GrantedIsAccepted` | src/corvus/management/rate_limit.py:17-28 | the calls that the limiter lets through are those that the reference accepts |
| `SlidingWindow.WindowNeverExceedsLimit` | src/corvus/management/rate_limit.py:17-28 | no closed window of the configured length holds more than the limit of calls that the limiter let through |
| `SlidingWindow.RetryAfterSufficesIff` | src/corvus/management/rate_limit.py:30-38 | waiting as advertised suffices if and only if the remaining time is not within a millisecond above a whole number of seconds |
| `SlidingWindow.RetryAfterCanFail` | src/corvus/management/rate_limit.py:30-38 | a client that waits as advertised and is refused again |
| `TokenBucket.Limiter.Consume` | src/corvus/node/rate_limit.py:15-23 | grants exactly when the refilled bucket holds a token, and takes it |
| `TokenBucket.LevelBounded` | src/corvus/node/rate_limit.py:9-23 | in any run the level stays between zero and burst |
| `TokenBucket.GrantsBounded` | src/corvus/node/rate_limit.py:9-23 | in any run any span of T seconds is granted at most burst + rate * T messages |
| `TokenBucket.RefusedIffSpent` | src/corvus/node/rate_limit.py:9-23 | in every run from a full bucket a call is refused if and only if the grants since some earlier call, or none at all, have used up a full bucket and all that the rate has added since |
| `TokenBucket.PacedNeverRefused` | src/corvus/node/rate_limit.py:15-23 | a sender that keeps to the rate is never refused |
| `Behavioral.Monitor.Record` | src/corvus/server/db.py:1184-1212 | the counter of the event's minute goes up by one and no other changes |
| `Behavioral.Monitor.RecordMessageHop` | src/corvus/policy/behavioral.py:45-67 | one is added to the message hops of the agent for everything but a handshake, one to its cross-agent signal exactly for a memory message aimed at another agent, and to no other sum |
| `Behavioral.Monitor.Startup` | src/corvus/policy/behavioral.py:36-43 | exactly the counters older than the retention go |
| `Behavioral.Monitor.SignalsFor` | src/corvus/policy/behavioral.py:101-120 | for counters that come from any history, each signal lies between the exact numbers of events in its window less a minute and in the whole window |
| `Behavioral.SumIsExactFromBoundary` | src/corvus/policy/behavioral.py:26-67 | for every history a bucketed sum is the exact number of events since the first minute boundary of its window |
| `Behavioral.SignalBetweenWindows` | src/corvus/policy/behavioral.py:101-120 | for every history the signal lies between the exact counts of the window less a minute and of the whole window |
| `Stream.MergeDelta` | src/corvus/llm/providers/openai_compat.py:132-149 | one fragment extends exactly the call of its index |
| `Stream.MergeAll` | src/corvus/llm/providers/openai_compat.py:97-98 | the accumulator holds for each index the assembly of all its fragments so far |
| `Stream.ReadChoice` | src/corvus/llm/providers/openai_compat.py:89-98 | one choice extends texts, numbering, finish reason and calls |
| `Stream.ReadPayload` | src/corvus/llm/providers/openai_compat.py:88-98 | so do all choices of an event, in order |
| `Stream.CallsInOrder` | src/corvus/llm/providers/openai_compat.py:114-114 | one call per index mentioned, by increasing index |
| `Stream.Finish` | src/corvus/llm/providers/openai_compat.py:100-130 | the terminal chunk: content, calls, usage with its estimate, finish reason with its default |
| `Stream.StreamCompletion` | src/corvus/llm/providers/openai_compat.py:41-130 | the chunks of a stream: numbered non-empty texts, then one terminal chunk assembled from all fragments |
| `StreamLaws.ChunksMean` | src/corvus/llm/providers/openai_compat.py:59-130 | for every response the numbered pieces are none empty and together all the text before the end marker, the terminal chunk repeats it, the finish reason is the last given or says whether there are calls, and the usage is the last reported or estimated from the lengths |
| `StreamLaws.CallsAssembled` | src/corvus/llm/providers/openai_compat.py:59-149 | for every interleaving, the calls come by increasing index, one per index that a fragment of the stream mentions, each with the name and argument pieces of its own index joined in arrival order and the last id and kind given |
| `StreamLaws.OwnFragmentsOnly` | src/corvus/llm/providers/openai_compat.py:132-149 | a call depends on the fragments of its own index only |
| `StreamLaws.InterleavingIrrelevant` | src/corvus/llm/providers/openai_compat.py:59-149 | two streams that carry the same fragments index by index give the same calls, however they are interleaved and spread over events |
| `StreamDelivery.RunLlmStream` | src/corvus/server/router.py:315-380 | what is sent is one message per piece of text and then the outcome, a failure if the provider failed or never finished, up to the first delivery that fails |
| `StreamDelivery.CollectLlmStream` | src/corvus/runtime/llm_client.py:122-182 | the first message that is no chunk settles the result: a success brings its own text or else what was heard, anything else fails, and without one there is only waiting |
| `StreamDelivery.TextArrivesWhole` | src/corvus/runtime/llm_client.py:122-182 | if every delivery succeeds, engine 3 ends with exactly the text and the calls that the provider streamed; if one fails, it never goes on with a part but waits |
| `StreamDelivery.FailureIsReported` | src/corvus/server/router.py:342-352 | if the provider fails in the middle, engine 3 fails too when every delivery succeeds, and waits otherwise |
| `Bus.BusClient.Send` | src/corvus/node/bus.py:85-89 | accepted exactly while the queue has room |
| `Bus.BusClient.TakeHead` | src/corvus/node/bus.py:131-131 | the oldest message leaves the queue |
| `Bus.BusClient.Confirm` | src/corvus/node/bus.py:133-134 | a message that was written is in flight no more |
| `Bus.BusClient.PutBack` | src/corvus/node/bus.py:133-137 | the message returns to the front, at the expense of the newest when the queue is full |
| `Bus.OrderKept` | src/corvus/node/bus.py:123-139 | in every interleaving what is written, in flight and queued is an in-order selection of what was accepted, and all of it if and only if the queue has room whenever a failed message is put back |
| `Bus.Drained` | src/corvus/node/bus.py:123-139 | from any state between two writes, once writes work everything still held is written, in the order of acceptance |
| `Bus.PutBackLosesNewest` | src/corvus/node/bus.py:133-137 | putting back loses a message exactly when the queue is full, and then the newest |
| `Bus.PutBackCanLose` | src/corvus/node/bus.py:133-137 | a run that loses an accepted message |

## Left out

- Router.MessageRouter.Handle: a handshake stops after its audit entry, because `Shake` is the step that answers it and `FlushForVm` the one its acknowledgement triggers.
- TurnProtocol: the loop and engines 1 to 3 are step functions with program counters instead of methods, because they interleave.
- Races between management requests, between routed messages, and between two flushes of one VM: each is one step here.
- A write that reaches the agent although draining the connection fails: it counts as not delivered.
- PolicyEngine.Evaluate: the facts about user, grant, quota and identity that are copied into the metadata after combining are not part of it.
- Router.MessageRouter.RegisterAgentManifest: launch grants are not created.
- Elevations.ElevationApi.ApproveElevation: who may approve is not checked; every approval is by an authorised approver.
- Elevations.ElevationApi.DenyElevation: who may deny is not checked either.
- Behavioral.Monitor.SignalsFor: only the two counting signals are returned, without message rates and tool patterns.
- PolicyRules.RuleStore.Reload: rules of equal priority may be listed in any order, where the table lists them by id; `HistoriesDecideAlike` shows that decision and code do not depend on it.
- Coordinator.TurnFile.MergeFields: only keys that no process reads back can be merged, as all callers do.
- Stream.Finish: the list of provider tools used is not part of the completion.
- The order of rows with equal sort keys: records with equal update times, queue rows with equal creation times and entries at equal distance are taken in insertion order.
- How facts about a request are gathered (identities, grants, quotas): facts are any value with the message's own agent and type.
- Router.MessageRouter.Conclude: the grant id that a routed memory request carries into the memory service is not named; only replays name theirs.
- Memory queries through the service, with their two error codes; the queries themselves are modelled.
- The text in `CORVUS_CHAT_TEXT` is taken as already stripped of surrounding blanks.
- Tool execution, memory engine and provider replies: any outcome may occur.
- Polling intervals and timeouts: a wait may end or time out at any step, so runs that complete are shown to exist, not to be inevitable.
- JSON, YAML and payload validation, encryption and hashing: abstract or absent; contents are opaque texts.
- Event-stream framing beyond `data:` lines and the end marker.
- Z-scores of message rates and tool-pattern deviation, and floating-point rounding: times and tokens are exact.
- Launching VMs, sockets, reconnection, the operator console, skills, metrics, logging and the remaining REST handlers.
- Retention of the audit log and of sessions: rows are only added.
