# Agent-team control plane: a verified model

This project models the server-side control plane for agent teams, with four smaller parts of the
same repository, and proves what they keep over every run.

The control plane is one lock-protected state machine. Each HTTP handler is one atomic step over five
things: the runtime entries with their leases and fencing tokens, the tasks with dependencies and a
resource budget, the command queue with visibility timeout and compaction, the bounded event log of each
project, and the sequence counters. Every write ends in a save that may fail and then has to leave memory
as it was.

| file | what it holds |
|---|---|
| `team_model.dfy` | the state as values, what each request computes, one step and whole runs |
| `team_frames.dfy`, `team_steps.dfy` | the well-formedness invariant and what a state may become: every request keeps the one and stays within the other |
| `team_fencing.dfy` | one live entry per project, dead tokens, fenced runtimes |
| `team_scheduler.dfy` | dependencies, activation, the resource budget over runs, manual completion |
| `team_settled.dfy` | when no task that could go on is left waiting, over whole runs |
| `team_starts.dfy` | when start commands are made |
| `team_single.dfy` | at most one open start command for a task |
| `team_verdicts.dfy` | what a user's cancellation and rejection are worth against the agent |
| `team_replies.dfy` | what each request answers and when, and what a served one makes of entries and tasks |
| `team_events.dfy` | what each agent event makes of its task and of those that wait for it, and what is logged |
| `team_dispatch.dfy` | every task that becomes ready is sent to an agent that can be reached |
| `team_delivery.dfy` | handing commands out, hiding them, handing them out again, and what user actions send |
| `team_quiet.dfy` | the steps of the example runs |
| `team_queue.dfy` | command lifecycle, compaction, takeover, retry |
| `team_keys.dfy` | a client key creates one task |
| `team_intake.dfy`, `team_applied.dfy` | exactly-once event intake, what it leaves in the log, exact rollback |
| `team_log.dfy` | the bounded log and its cursor readers |
| `team_store.dfy` | the same control plane as an object over lists of references to mutable records, with loops, clones, snapshot and rollback, proved to do what `team_model.dfy` says |
| `artifact_upload.dfy` | the chunked artifact upload with failing file operations |
| `log_framing.dfy` | the writer that frames container output as server-sent events |
| `app_version.dfy` | version parsing, ordering, newest catalogue entry, update list |
| `migration_ledger.dfy` | applying migrations with ledger and audit runs |

Conventions. Generated identifiers and tokens are numbers drawn from one counter, so each is fresh; the
counter is not put back by a rollback. Time is a number handed to each request; nothing is assumed about
how it moves from one request to the next. `Env` carries the project's resource budget, the time, and
whether the save succeeds, so each statement about a run covers every pattern of failing saves, and a
budget or a clock that changes during the run. `Run(s, calls)` is the state after any sequence of requests.
SHA-256, the failures of file and database operations, and the effect of a migration are parameters.

Where the code does less than one would expect, the model follows the code and the limits are proved:

- `unregister` compares only the token. A fenced entry can become offline and then live again beside the
  runtime that replaced it (`TeamFencing.FencedEntryRevives`). A step keeps the fencing invariant if and
  only if it is not such an unregister (`TeamFencing.StepFencing`).
- An agent's report that a task has started is not checked against the budget
  (`TeamScheduler.StartedOverBudget`). With a fixed budget no project goes over it in any state of a run if
  and only if every report taken fits in the state it meets (`TeamScheduler.BudgetOverRuns`).
- A failing save leaves the time stamp that `input` wrote in place (`TeamIntake.InputStampSurvives`), and
  nothing else ever (`TeamIntake.RollbackExact`).
- A retry sets off no activation. With a fixed budget no task that could go on is left waiting in any state
  of a run if and only if nobody gains by a retry in it (`TeamSettled.RestsOverRuns`): no other waiting task
  has the retried one as its first open dependency while that gets blocked, or fits into what it frees.
  `TeamSettled.RetryLeavesReadyWaiting` is a run in which somebody does.
- A dependency that has failed is not seen while an earlier one in the list is still open
  (`TeamScheduler.DepStatusMeaning`).
- A rejection does not bind the agent: its next report can move the task on (`TeamVerdicts.RejectionUndone`,
  `TeamVerdicts.EventOnBlocked`). A cancellation does, until a user undoes it
  (`TeamVerdicts.UserCancellationStands`).
- A part file can be full, so that it takes no further chunk, although nothing is stored; exactly when a step
  leaves it so is `ArtifactUpload.StepFull`: a last chunk that the sender is not told about, an announcement
  with a size the file already has, the loss of the record from a full list, an init of an artifact of size
  0. It stays so at least until the artifact is announced or initialised again
  (`ArtifactUpload.FullUntilRestart`); an artifact of size 0 is accepted and can never be stored
  (`ArtifactUpload.EmptyNeverStored`).
- An upload cannot be taken up again, ever, once its final file stands without a complete record
  (`ArtifactUpload.StuckForever`). Three calls lead there and no others (`ArtifactUpload.StepStuck`): a last
  chunk whose record cannot be saved and whose file cannot be named back, announcing a stored artifact
  again, and announcing one artifact more than the list holds, when a stored one drops out. Runs from the
  start that get there: `ArtifactUpload.FullReached`, `ArtifactUpload.StuckReached`.
- A flush that the connection does not take loses the pending bytes (`LogFraming.FlushLoses`), and nothing
  else does (`LogFraming.StepHeld`, `LogFraming.NothingLost`).
- A finished line longer than 64 KiB and not a whole multiple of it makes the frames depend on how the input
  was cut into writes, and nothing else does (`LogFraming.SplitExact`).
- Versions that do not parse are compared as text, which can close a cycle of newer and older
  (`AppVersion.TextFallbackCycles`), and the entry found can then be older than another
  (`AppVersion.NewestMissed`). On a set of versions the comparison is an order, and the list of updates is
  always right, if and only if none that does not parse lies as text across two that do
  (`AppVersion.TransitiveExact`, `AppVersion.ListedExactly`); every catalogue has its newest entry found if
  and only if none of the versions is overtaken (`AppVersion.NewestExact`).
- A stream that starts from nothing is not refused although events are gone (`TeamLog.CursorCheckExact`,
  `TeamLog.FirstEventGone`).

## Model

| member | source | states |
|---|---|---|
| TeamSteps.StepGrows | node/api/agent_team.go:155-1168 | every request, saved or not, keeps ids and tokens unique and below the counter, one entry per (project, runtime), dependencies on earlier tasks of the same project, manual completion only on completed tasks; and it only grows the state: tasks keep identity and never lose a manual completion, attempts only rise, finished commands do not change, old tokens do not come back, logs are only appended to |
| TeamSteps.RunGrows | node/api/agent_team.go:155-1168 | the same over every run |
| TeamFencing.StepFencing | node/api/agent_team.go:155-227 | one request keeps "at most one entry of a project is not fenced, there is one if there are entries, and unfinished commands are addressed to it" exactly when it is not a saved unregister of a fenced entry |
| TeamFencing.FencingOverRuns | node/api/agent_team.go:390-441 | that invariant holds in every state of a run exactly when every saved unregister in it comes from an entry that is not fenced |
| TeamFencing.ReachableFencing | node/api/agent_team.go:155-227 | in every such reachable state (project, runtime) pairs are unique, each project has at most one entry that is not fenced, and every unfinished command of the project is addressed to it |
| TeamFencing.FencedEntryRevives | node/api/agent_team.go:422-441 | a run from the empty state in which it breaks: takeover, unregister with the old token, heartbeat |
| TeamFencing.RegisterKills | node/api/agent_team.go:177-196 | registering again makes every token drawn before dead for that runtime |
| TeamReplies.RegisterReply | node/api/agent_team.go:155-176 | with project and runtime given, a registration is refused exactly when an entry of another runtime that is not offline holds a lease beyond now and has only offline entries of the project before it; otherwise it is served with a fresh token, or its save fails |
| TeamReplies.RegisterEntries | node/api/agent_team.go:177-196 | the entries after a registration are exactly: the new one, online for 15 seconds with nothing taken; those of other projects; the others of the project, fenced |
| TeamReplies.HeartbeatMeaning | node/api/agent_team.go:390-420 | served exactly for an entry with that token that is not fenced; it renews the lease for 15 seconds and changes nothing but status and time |
| TeamReplies.UnregisterMeaning | node/api/agent_team.go:422-441 | served exactly for an entry with that token, fenced or not, which goes offline; nothing else changes but the log |
| TeamReplies.ExpireMeaning | node/api/agent_team.go:575-607 | exactly the online and busy entries whose lease is over go offline |
| TeamReplies.PollReply | node/api/agent_team.go:708-725 | refused exactly when a field is missing or no unfenced entry with that token has a lease that is not over |
| TeamReplies.AckReply | node/api/agent_team.go:782-802 | the same for an ack, which names 1 to 100 commands |
| TeamFencing.DeadForever | node/api/agent_team.go:155-1168 | once dead, a token is dead in every later state of every run, and heartbeat, unregister, events, commands and ack with it are refused and change nothing |
| TeamFencing.TakeoverFences | node/api/agent_team.go:186-197 | a registration fences every other runtime of its project |
| TeamFencing.FencedForever | node/api/agent_team.go:155-441 | over every run with saved unregisters only from unfenced entries, a fenced runtime stays fenced until it registers again, and heartbeat, events, commands and ack of it are refused, whatever token they show |
| TeamIntake.PassesAgree | node/api/agent_team.go:458-533 | on an accepted batch the applying pass with its moving `last` takes exactly the events the validating pass with its fixed `last` looked at, and they continue the numbering without a gap |
| TeamIntake.BatchTakesSlice | node/api/agent_team.go:458-533 | an accepted batch drawn from an agent's stream, in any order and with repetitions, adds exactly the next slice of the stream |
| TeamIntake.IntakeContinues | node/api/agent_team.go:443-540 | over any run within one registration, with overlapping, repeated, rejected or unsaved batches and any other requests, the events taken are the stream items after `last`, in order and once each, and the entry's `lastSequence` counts them |
| TeamIntake.ExactlyOnce | node/api/agent_team.go:177-185 | from a fresh registration on, the events taken are exactly stream items 1 to `lastSequence` |
| TeamReplies.EventsReply | node/api/agent_team.go:443-499 | a batch of 1 to 100 events under a held lease is taken, up to the number reached, exactly when none of its events is faulty; otherwise the first faulty one decides the refusal: no event, a gap, an unknown task, a bad attempt, a bad payload |
| TeamReplies.EventsRenew | node/api/agent_team.go:531-540 | it renews the lease for 15 seconds and notes the number reached, and no other entry changes |
| TeamEvents.EventMeaning | node/api/agent_team.go:1356-1377 | an event for the attempt its task is at, where no user has ended the task, gives the status its type names, for the five plain types and the five reports, and changes nothing else but the time and, for a completion report, its source |
| TeamEvents.OtherEventMeaning | node/api/agent_team.go:1381-1429 | a handoff changes the owner, an artifact the time, any other event nothing |
| TeamEvents.EventLeaves | node/api/agent_team.go:515-529 | tasks ended by a user, of another project, at another attempt or not named stay exactly as they are, unless they waited |
| TeamEvents.DependentsDecided | node/api/agent_team.go:522-529 | when an event completes a task, each one that waited for nothing else is accepted or held up by the budget alone; when it fails, cancels or blocks it, each one that waited for it first is blocked |
| TeamEvents.EventLogged | node/api/agent_team.go:512-521 | an event is logged first, under the next number, with runtime, task and attempt, and marked out of date exactly when its task is at another attempt |
| TeamApplied.RunMarked | node/api/agent_team.go:1277-1292 | over any run a project's log gains, of each runtime, exactly the server's notices of its coming and going and the events taken from it, with type, task and attempt, once each and in the order of the requests; the scheduler, the user and other runtimes add nothing under its name |
| TeamApplied.StreamIsLogged | node/api/agent_team.go:443-540 | from a registration on, the project's history gains under this runtime's name the agent's stream up to `lastSequence`, once each and in order, with nothing between but the server's notices that it came or went, one for each request that says so |
| TeamIntake.RollbackExact | node/api/agent_team.go:1305-1347 | when a failed save leaves more than the identifier counter changed: exactly for an `input` that has moved its task's time stamp; that the lists and records really are put back is what TeamStore.Store.Serve proves |
| TeamIntake.InputStampSurvives | node/api/agent_team.go:1141-1142 | a concrete `input` whose save fails and whose time stamp stays |
| TeamScheduler.DepStatusMeaning | node/api/agent_team.go:283-294 | accepted exactly when all dependencies are completed; otherwise the first one not completed decides between blocked and waiting |
| TeamScheduler.ReachableAcyclic | node/api/agent_team.go:229-281 | in every reachable state every dependency path runs strictly back to earlier tasks of the same project |
| TeamModel.PassRank | node/api/agent_team.go:296-332 | a pass that changes a task lowers the rank waiting_dependency > waiting_resource > other, so activation terminates |
| TeamScheduler.ActivateSettles | node/api/agent_team.go:296-332 | after activation every waiting task of the project either waits for a dependency, or is waiting_resource and does not fit the budget |
| TeamScheduler.ActivateMoves | node/api/agent_team.go:296-332 | activation touches only waiting tasks of its own project, and only their status and time |
| TeamEvents.ActivationDecides | node/api/agent_team.go:296-332 | activation releases every waiting task whose dependencies are all completed, up to the budget, and blocks every one with a dead dependency behind completed ones |
| TeamEvents.VisitLogged | node/api/agent_team.go:306-330 | a visit logs one event for a task it moves, naming the new status, and none for one it leaves |
| TeamScheduler.ActivateBudget | node/api/agent_team.go:296-371 | activation frees nothing that is charged and keeps every project within budget |
| TeamReplies.UnitsCounted | node/api/agent_team.go:334-371 | what is charged: 4, 2 or 1 for each large, medium or small task of the project that is accepted, running or waiting for input |
| TeamScheduler.FinishingEventSettles | node/api/agent_team.go:522-529 | after an agent event that finishes a task no ready task that fits is left waiting |
| TeamScheduler.FinishingActionsSettle | node/api/agent_team.go:1144-1153 | the same after complete, cancel and reject |
| TeamSettled.QuietPut | node/api/agent_team.go:283-371 | a change that completes nothing, fails nothing and frees nothing lets no other waiting task go on |
| TeamSettled.CreateRests | node/api/agent_team.go:670-690 | a new task starts in the status the scheduler would give it, and disturbs no other |
| TeamSettled.RetryRests | node/api/agent_team.go:1101-1118 | a retry leaves no task waiting that could go on exactly when nobody gains by it |
| TeamSettled.StepRests | node/api/agent_team.go:296-332 | a request, saved or not, leaves no task of any project waiting that could go on exactly when it is not a saved retry by which another task gains |
| TeamSettled.RestsOverRuns | node/api/agent_team.go:296-332 | with a fixed budget no state of a run has a task waiting that could go on exactly when nobody gains by a retry in the run |
| TeamSettled.NothingReadyWaits | node/api/agent_team.go:296-332 | in every state such a run reaches from the start, a waiting task waits for a dependency that has not failed, or has all its dependencies and does not fit the budget |
| TeamSettled.RetryLeavesReadyWaiting | node/api/agent_team.go:1101-1118 | a run from the empty state ending in a retry by which another task gains: that task goes on waiting |
| TeamScheduler.StepBudget | node/api/agent_team.go:358-371 | every request but a batch of agent events keeps counted units within budget: create, retry, complete, cancel, reject, approve, input, register and the rest |
| TeamScheduler.EventBudget | node/api/agent_team.go:1356-1377 | an agent event keeps them within budget exactly when the task it moves is charged no more than before or still fits |
| TeamScheduler.UsualEventsFit | node/api/agent_team.go:1367-1447 | in plain terms: an event on an already counted task, or that moves its task to an uncounted status, always fits |
| TeamScheduler.BatchBudget | node/api/agent_team.go:500-531 | a batch keeps every project within budget from event to event exactly when each event fits in the state it meets |
| TeamScheduler.RequestBudget | node/api/agent_team.go:443-540 | a request keeps every project within budget exactly when it is not a saved batch with an event that does not fit |
| TeamScheduler.BudgetOverRuns | node/api/agent_team.go:358-371 | with a fixed budget no project is over it in any state of a run, those inside batches included, exactly when every event taken fits in the state it meets |
| TeamScheduler.StartedOverBudget | node/api/agent_team.go:1367-1367 | a run from the empty state that goes over the budget: a task waiting for resources reports that it has started |
| TeamScheduler.UserCompletionFinal | node/api/agent_team.go:1058-1067 | in every reachable state a manual completion means status completed, and no later run changes status, completion source or attempt of that task |
| TeamVerdicts.StepCancelled | node/api/agent_team.go:1350-1366 | a task a user has cancelled stays so under a request, agent batches included, exactly unless the request is a saved retry, completion or rejection of it |
| TeamVerdicts.UserCancellationStands | node/api/agent_team.go:1350-1366 | it stays so in every state of a run exactly when no user undoes it in the run |
| TeamVerdicts.EventOnBlocked | node/api/agent_team.go:1356-1377 | a blocked task, rejected or not, stays blocked under an agent event exactly unless the event moves it elsewhere |
| TeamVerdicts.RejectionUndone | node/api/agent_team.go:1367-1367 | a run from the empty state in which the agent's report undoes a rejection |
| TeamKeys.StepKeys | node/api/agent_team.go:648-653 | every request keeps client keys unique within a project |
| TeamKeys.CreatedOnce | node/api/agent_team.go:648-653 | in every reachable state a project has at most one task of a client key, and from then on every create with that key is answered without changing anything |
| TeamReplies.CreateReply | node/api/agent_team.go:609-669 | the refusals of a new task in their order: no project, a malformed list of up to 32 dependencies, a used key (a replay), 10000 tasks or 1000 unfinished commands, an unknown dependency |
| TeamReplies.CreateMeaning | node/api/agent_team.go:670-705 | the task added is the one asked for, with its first attempt, where dependencies and budget put it |
| TeamEvents.CreateLogged | node/api/agent_team.go:680-686 | a creation logs one event that says where the task was put |
| TeamReplies.ActionReply | node/api/agent_team.go:1039-1100 | what an action is answered, in the order of its checks, with the limits of a million attempts and 1000 unfinished commands |
| TeamReplies.ActionMeaning | node/api/agent_team.go:1088-1141 | what each of the six actions makes of its task, and that the others are only moved by activation |
| TeamEvents.ActionLogged | node/api/agent_team.go:1139-1158 | a served action logs itself first |
| TeamStarts.EventStartsFree | node/api/agent_team.go:846-850 | every start command an agent event brings about is for a task whose dependencies are all completed right after that event |
| TeamStarts.StepStartsFree | node/api/agent_team.go:846-865 | the same for every other request |
| TeamStarts.StartsMadeFree | node/api/agent_team.go:846-865 | over any run every start command made in it was made in a state, inside a batch if need be, in which all dependencies of its task were completed |
| TeamStarts.ReachableStartsFree | node/api/agent_team.go:846-865 | so every start command there is in a reachable state was made that way |
| TeamDispatch.StepDispatches | node/api/agent_team.go:296-332 | whatever request makes a task accepted, or accepted for a new attempt (create, retry, batch, user action), leaves an unfinished start command for that attempt in the queue, if the project has an entry that is not fenced and holds its lease |
| TeamDispatch.BatchDispatches | node/api/agent_team.go:500-531 | the same of the state the events of a batch leave |
| TeamDispatch.StepQueues | node/api/agent_team.go:846-865 | every command a request makes is addressed to an entry of the project that is not fenced and holds its lease, and every one it finds stays or is finished |
| TeamDispatch.RegisterAddresses | node/api/agent_team.go:197-227 | the commands a registration makes are starts of accepted tasks, at their attempt, for its own runtime |
| TeamDispatch.BatchSends | node/api/agent_team.go:500-531 | the events of a batch make nothing but starts, for tasks that waited before it |
| TeamDispatch.CreateSends | node/api/agent_team.go:686-690 | a creation makes at most a start of the new task |
| TeamDispatch.RetrySends | node/api/agent_team.go:1101-1118 | a retry makes commands for its own task only |
| TeamDispatch.RejectSends | node/api/agent_team.go:1148-1153 | a rejection makes nothing but starts for tasks that waited |
| TeamSingle.StepSingle | node/api/agent_team.go:846-938 | every request, saved or not, keeps: a task has at most one unfinished start command, which is for the attempt the task is at, and none while it waits |
| TeamSingle.ReachableSingle | node/api/agent_team.go:186-227 | so it is in every reachable state, through activation, takeover, retry and compaction |
| TeamQueue.CompactionExact | node/api/agent_team.go:868-888 | compaction keeps exactly the commands of other projects, the unfinished ones, and the newest 2000 finished ones of the project, in their old order |
| TeamQueue.CompactionCount | node/api/agent_team.go:868-888 | it leaves min(2000, as many as there were) finished commands of the project |
| TeamDelivery.AckBounds | node/api/agent_team.go:803-826 | after an ack at most 2000 finished commands of the project are left |
| TeamQueue.StepHolds | node/api/agent_team.go:803-938 | an unfinished command stays unfinished except by an ack of its own runtime after delivery, or cancel, retry or complete of its task |
| TeamQueue.FinishedForever | node/api/agent_team.go:868-938 | an acked or superseded command never changes again in any run |
| TeamQueue.PollExact | node/api/agent_team.go:727-745 | a poll hands out exactly the first available commands of the asking runtime, in queue order and at most as many as asked for, and changes those and no others; how is TeamDelivery.ItemsMeaning |
| TeamDelivery.ItemsMeaning | node/api/agent_team.go:727-745 | each item was queued, or delivered and its time over; it is now delivered, hidden for 30 seconds and counted once more, up to the bound, and otherwise as it was; with room for all, every such command is an item |
| TeamDelivery.NotHandedTwice | node/api/agent_team.go:915-922 | a command handed out is in no answer to any later poll with a clock less than 30 seconds further, over any run in which its project is not taken over |
| TeamDelivery.HandedOutAgain | node/api/agent_team.go:915-922 | over any run in which it is not handed out otherwise, one that is still unfinished is handed out again to its runtime, by a poll with room for all, exactly if the clock is 30 seconds further |
| TeamDelivery.StepFollows | node/api/agent_team.go:803-938 | a command met again after a request is as it was, finished, or handed out by it, unless its project is taken over |
| TeamDelivery.RegisterRequeues | node/api/agent_team.go:197-209 | a takeover puts the unfinished commands of the project back queued for the new runtime, otherwise unchanged |
| TeamDelivery.InputSends | node/api/agent_team.go:1154-1158 | an input sends one input command for the attempt the task is at, if the project can be reached, and nothing else |
| TeamDelivery.CancelSends | node/api/agent_team.go:1148-1158 | a cancel finishes every command of its task and sends a cancel of the attempt it is at, if the project can be reached |
| TeamDelivery.CompleteSends | node/api/agent_team.go:1143-1147 | so does a completion |
| TeamQueue.AckFinishes | node/api/agent_team.go:803-820 | an ack turns exactly the named commands delivered to its runtime into acked ones; of the others it changes none |
| TeamQueue.NoLostWork | node/api/agent_team.go:186-227 | after a registration every unfinished command of the project is queued and addressed to the new runtime, and every accepted task whose dependencies are completed has an unfinished start command |
| TeamQueue.RetryIsolation | node/api/agent_team.go:1101-1118 | a retry raises the attempt by one and leaves of the task's unfinished commands exactly one cancel of the old attempt, then one start of the new one if it is accepted again |
| TeamQueue.RetryFinishesOld | node/api/agent_team.go:928-938 | every command the task had before a retry is finished or dropped |
| TeamQueue.StaleForever | node/api/agent_team.go:515-524 | an event left behind by a retry changes nothing but the log in whatever later state it arrives, and is logged as stale |
| TeamLog.HistoryGrows | node/api/agent_team.go:1277-1292 | in a later state the history of a log continues the earlier one |
| TeamLog.ReachableLog | node/api/agent_team.go:1277-1292 | in every reachable state each log is the last min(n, 2000) of the n events ever appended, numbered consecutively up to the project's counter |
| TeamLog.ReadOnce | node/api/agent_team.go:1237-1251 | one pass of the stream loop sends the events past the cursor, of the task asked for if any, in order, and moves the cursor to the last of them |
| TeamLog.FollowIncreases | node/api/agent_team.go:1225-1265 | a stream sends strictly increasing numbers beyond its cursor, over any run |
| TeamLog.FollowGapFree | node/api/agent_team.go:1225-1265 | a stream is every event after the cursor, once each and in order, exactly when at each read the event after the cursor is still retained |
| TeamLog.FollowOfTask | node/api/agent_team.go:1237-1251 | a stream of one task is sent exactly the events of that task out of what a stream of everything is sent, although its cursor stays behind |
| TeamLog.CursorCheckExact | node/api/agent_team.go:1213-1220 | a stream is refused on opening exactly when its cursor is not 0 and what it would be sent is not every event after the cursor |
| TeamLog.FirstEventGone | node/api/agent_team.go:1213-1220 | a run from the empty state after which a stream from cursor 0 is not refused and misses an event |
| TeamStore.Store.Serve | node/api/agent_team.go:155-1168 | any request on the object graph does one step of the machine, failed save included, and writes to no record that existed before except the task record of an `input` |
| TeamStore.Store.ServeAll | node/api/agent_team.go:155-1168 | any sequence of requests on the object graph does the run of the machine with its replies, so that every theorem about runs holds of the object graph |
| TeamStore.Store.TakeSnapshot | node/api/agent_team.go:1305-1323 | the copied lists refer to records that hold the current values |
| TeamStore.Store.Save | node/api/agent_team.go:1325-1347 | after a failed save the lists of the snapshot show the values they showed when it was taken |
| TeamStore.Store.Register | node/api/agent_team.go:155-227 | fences clones of the other entries, requeues clones of the commands, restarts accepted tasks; restored if the save fails |
| TeamStore.Store.Heartbeat | node/api/agent_team.go:390-420 | renews a clone of the entry; restored if the save fails |
| TeamStore.Store.Unregister | node/api/agent_team.go:422-441 | turns a clone of the entry offline, whatever its status; restored if the save fails |
| TeamStore.Store.Events | node/api/agent_team.go:443-540 | validates the whole batch, then applies it event by event with a moving `last`; restored if the save fails |
| TeamStore.Store.ValidateBatch | node/api/agent_team.go:458-499 | the first refusal in batch order, decided against a fixed `last` |
| TeamStore.Store.ApplyBatch | node/api/agent_team.go:500-531 | applies exactly the selected events and returns the number reached |
| TeamStore.Store.ApplyEvent | node/api/agent_team.go:512-529 | logs the event, stamps attempt and staleness on the stored record, and moves the task unless it is stale |
| TeamStore.Store.UpdateFromEvent | node/api/agent_team.go:1356-1377 | moves a clone of the task unless a user has ended it |
| TeamStore.Store.ApplyCollaboration | node/api/agent_team.go:1381-1453 | handoff, artifact and completion report on a clone of the task |
| TeamStore.Store.Expire | node/api/agent_team.go:575-607 | turns expired entries offline, one event each; nothing is written when none has expired |
| TeamStore.Store.Create | node/api/agent_team.go:609-705 | adds the task with the status its dependencies and the budget give it, with its event and start command |
| TeamStore.Store.Admit | node/api/agent_team.go:648-669 | the refusals of a new task in their order: idempotency key, capacity, dependencies |
| TeamStore.Store.Poll | node/api/agent_team.go:708-771 | delivers clones of the available commands up to the limit; writes nothing when there are none |
| TeamStore.Store.Ack | node/api/agent_team.go:782-826 | acks clones of the delivered commands named, then compacts |
| TeamStore.Store.Act | node/api/agent_team.go:1039-1168 | the six task actions behind their guard; only `input` writes to an existing record |
| TeamStore.Store.Guard | node/api/agent_team.go:1057-1090 | replays, conflicts and capacity refusals of an action, in the source's order |
| TeamStore.Store.ActRetry | node/api/agent_team.go:1101-1118 | supersede, cancel the old attempt, raise the attempt, reschedule |
| TeamStore.Store.Activate | node/api/agent_team.go:296-332 | repeated passes, each visit with its event and start command, until one changes nothing; that the tasks released are dispatched is TeamDispatch.StepDispatches |
| TeamStore.Store.DependencyStatus | node/api/agent_team.go:283-294 | the loop over the dependencies decides what `DepStatus` says |
| TeamStore.Store.ResourceAvailable | node/api/agent_team.go:358-371 | the loop over the tasks adds up what the project is charged |
| TeamStore.Store.Enqueue | node/api/agent_team.go:846-865 | a start only for a task whose dependencies are completed, to the first reachable entry, then compaction |
| TeamStore.Store.Compact | node/api/agent_team.go:868-888 | counting first and then dropping from the front is the compaction proved exact above |
| TeamStore.Store.Supersede | node/api/agent_team.go:928-938 | supersedes clones of the unfinished commands of one task |
| TeamStore.Store.AppendEvent | node/api/agent_team.go:1277-1292 | the next number, at most 2000 events kept |
| ArtifactUpload.Uploader.Announce | node/api/agent_team.go:1407-1429 | replaces the record of an artifact announced before, or appends it and keeps the newest 64; put back if the save fails |
| ArtifactUpload.Uploader.Init | node/api/agent_team_artifact.go:64-130 | truncates the part file and records the start, with its refusals and removals |
| ArtifactUpload.Uploader.Chunk | node/api/agent_team_artifact.go:132-254 | appends at the expected offset and records it, truncating back when that cannot be saved |
| ArtifactUpload.Uploader.Finish | node/api/agent_team_artifact.go:217-253 | checks the digest, renames, records completion, and renames back when that cannot be saved |
| ArtifactUpload.AnnounceMeaning | node/api/agent_team.go:1407-1429 | an announcement is taken exactly when it is well-formed, up to 1 GiB, names an open task of the project and is saved; the record is then just as announced |
| ArtifactUpload.InitReply | node/api/agent_team_artifact.go:64-130 | the refusals of an init in their order, with the lease and the artifact said by their entries |
| ArtifactUpload.ChunkReply | node/api/agent_team_artifact.go:132-194 | the refusals of a chunk in their order; whatever passes them is appended |
| ArtifactUpload.AnsweredOffset | node/api/agent_team_artifact.go:195-253 | the offset answered is the length of what is stored: the part file longer by the chunk, or the final file |
| ArtifactUpload.StepInv | node/api/agent_team_artifact.go:64-254 | whatever fails, every step keeps complete records true to their files and every final file as it is |
| ArtifactUpload.CompleteIsStored | node/api/agent_team_artifact.go:217-253 | in every run, whatever fails, a complete record has its file of the registered size and SHA-256, and that file never changes again, even if the artifact is announced again |
| ArtifactUpload.StepInSync | node/api/agent_team_artifact.go:195-253 | a step keeps part files, recorded offsets and complete files equal to what was acknowledged since the last init, exactly unless it is one of the failures that leave a stray chunk |
| ArtifactUpload.DeliveredAsSent | node/api/agent_team_artifact.go:64-254 | over a run without those failures, a part file is the chunks acknowledged since the last init, and a complete artifact is stored exactly as acknowledged |
| ArtifactUpload.StepStuck | node/api/agent_team_artifact.go:236-253 | a step leaves a final file without a complete record exactly when it was so before, or the step is a last chunk with both the save and the renaming back failing, or an announcement of the stored artifact, or one that drops its record out of the full list |
| ArtifactUpload.StuckForever | node/api/agent_team_artifact.go:88-115 | from then on, over any run, every init and every chunk for the artifact is refused and changes nothing |
| ArtifactUpload.InitServed | node/api/agent_team_artifact.go:88-130 | an init with fields, lease and working files is served, by an empty part file or the stored artifact, exactly when no final file stands without a complete record |
| ArtifactUpload.LastChunkThenInit | node/api/agent_team_artifact.go:217-253 | after a last chunk such an init is served exactly unless reading, digest and renaming went well and saving and renaming back both failed |
| ArtifactUpload.StepFull | node/api/agent_team_artifact.go:64-254 | after any step the part file of an artifact is full exactly when: it was and was left alone; or the record announced has no more than its size; or the record drops out of the list; or an init empties it for a size of 0; or a last chunk strays |
| ArtifactUpload.ChunkTaken | node/api/agent_team_artifact.go:164-205 | what full means: a chunk that nothing else refuses is appended exactly when it continues the part file within the size, so a full one takes none, and one that is not takes a byte |
| ArtifactUpload.LastChunkFills | node/api/agent_team_artifact.go:209-253 | a last chunk leaves a full part file exactly when it is one of the failures that leave a stray chunk |
| ArtifactUpload.FullUntilRestart | node/api/agent_team_artifact.go:170-194 | a full part file stays as it is and refuses every chunk, over any run in which the artifact is not announced or initialised again |
| ArtifactUpload.EmptyNeverStored | node/api/agent_team_artifact.go:158-173 | in any run that announces an artifact with size 0 only it is never stored, and every chunk for it is refused |
| ArtifactUpload.FullReached | node/api/agent_team_artifact.go:217-221 | a run from the start after which a part file is full |
| ArtifactUpload.StuckReached | node/api/agent_team_artifact.go:236-253 | two runs from the start after which a final file stands without a complete record |
| ArtifactUpload.DeadTokenCannotUpload | node/api/agent_team_artifact.go:1108-1111 | init and chunk refuse, and change nothing for, a token that was dead at any earlier moment, and a fenced entry |
| LogFraming.Writer.Write | node/api/container_log_stream.go:303-336 | refuses a backlog, otherwise emits every complete line and 64 KiB pieces of a longer unfinished one |
| LogFraming.Writer.FlushPending | node/api/container_log_stream.go:351-360 | gives up the pending bytes and sends them as a frame |
| LogFraming.Writer.Event | node/api/container_log_stream.go:362-382 | flushes first, then sends the named event |
| LogFraming.StepHeld | node/api/container_log_stream.go:303-382 | a step neither loses, repeats nor reorders a byte, exactly unless it flushes into a frame that is not taken |
| LogFraming.EventFrames | node/api/container_log_stream.go:351-382 | a flush sends the pending bytes as one frame and a named event goes out after it, under the next identifiers, each written exactly when its frame is taken |
| LogFraming.WriteAnswer | node/api/container_log_stream.go:303-336 | a write answers a backlog exactly beyond 128 KiB, fails only at a frame that is not taken, and otherwise leaves at most 64 KiB of an unfinished line |
| LogFraming.NothingLost | node/api/container_log_stream.go:303-382 | for every split into writes and every interleaving of events and flushes, what was shown plus what is pending is the input without CR and LF, exactly when no pending bytes are flushed into a frame that is not taken |
| LogFraming.FlushLoses | node/api/container_log_stream.go:351-360 | a run from the start that loses a byte |
| LogFraming.SplitIrrelevant | node/api/container_log_stream.go:311-335 | if every finished line is at most 64 KiB or a whole multiple of it, the frames are the lines of the whole input in pieces of 64 KiB, numbered in order, however it was cut into writes that are not refused |
| LogFraming.ShortPieces | node/api/container_log_stream.go:311-335 | a finished line of at most 64 KiB is one piece |
| LogFraming.SplitExact | node/api/container_log_stream.go:307-335 | every two cuts of an input into writes that are not refused give the same frames exactly when every finished line is at most 64 KiB or a whole multiple of it |
| LogFraming.StepSettled | node/api/container_log_stream.go:307-336 | at most 64 KiB stay pending, so a write of at most 64 KiB is never refused, and a data frame is a single line |
| LogFraming.SmallWritesFit | node/api/container_log_stream.go:307-312 | any sequence of writes of at most 64 KiB is taken in |
| LogFraming.FramesStay | node/api/container_log_stream.go:338-349 | a frame once sent is never taken back |
| LogFraming.RunRecorded | node/api/container_log_stream.go:248-270 | the replay history is the last 256 frames sent, with growing identifiers |
| AppVersion.ParseVersion | node/api/apps_catalog.go:119-140 | the loops compute what `Parse` says |
| AppVersion.ParseReads | node/api/apps_catalog.go:119-140 | the text of a version is read back: its numbers, its pre-release identifiers, nothing of the build metadata |
| AppVersion.ParseOnly | node/api/apps_catalog.go:119-140 | nothing else parses: numerals between dots, after a dash identifiers that are not empty, after a plus sign anything |
| AppVersion.ParseMargins | node/api/apps_catalog.go:119-124 | margins do not count, nor a v, a V or both in front of them |
| AppVersion.FoldsCase | node/api/apps_catalog.go:144-149 | texts are compared without regard to the case of A to Z, and to nothing else |
| AppVersion.CompareAppVersion | node/api/apps_catalog.go:144-200 | the loops compute the comparison, with the text order for versions that do not parse |
| AppVersion.IdOrdering | node/api/apps_catalog.go:177-194 | the order of pre-release identifiers is total: antisymmetric, transitive, equal only to itself |
| AppVersion.IdMeaning | node/api/apps_catalog.go:177-194 | one comes before another exactly when it is the smaller number, or a number and the other not, or otherwise smaller at the first character that differs |
| AppVersion.CompareMeaning | node/api/apps_catalog.go:144-200 | the comparison is precedence as in section 11 of Semantic Versioning 2.0.0 (first difference decides), turns its sign with its arguments, and is zero exactly when cores agree up to trailing zeros and pre-releases are the same |
| AppVersion.CompareTransitive | node/api/apps_catalog.go:144-200 | it is transitive on versions that parse, ties included |
| AppVersion.TransitiveExact | node/api/apps_catalog.go:144-200 | on any set of texts it is transitive exactly when none that does not parse lies, as text, between two that parse and compare the other way, or tie without being the same text |
| AppVersion.LatestCatalogVersion | node/api/apps_catalog.go:221-234 | the loop keeps from left to right whatever is strictly newer |
| AppVersion.LatestIsNewest | node/api/apps_catalog.go:221-234 | if no matching version is overtaken, a newest matching entry is found, and none exactly when none matches |
| AppVersion.NewestExact | node/api/apps_catalog.go:221-234 | every catalogue with versions of a set has a newest matching entry found exactly when there are no x, y, z in the set with y not newer than z, z older than x and x older than y |
| AppVersion.AlikeNewest | node/api/apps_catalog.go:221-234 | so the newest is found where all matching versions parse, and where none does |
| AppVersion.AppCatalogUpdates | node/api/apps_route_handlers.go:338-352 | one entry for each installed application whose newest entry is strictly newer, in order |
| AppVersion.ListedExactly | node/api/apps_route_handlers.go:338-352 | with versions of a set, applications are always listed exactly when some matching entry is strictly newer, if and only if the comparison is transitive on the set, in the terms of TransitiveExact |
| AppVersion.TextFallbackCycles | node/api/apps_catalog.go:144-149 | with a version that does not parse the order has a cycle |
| AppVersion.NewestMissed | node/api/apps_catalog.go:221-234 | a catalogue with such a version, whose entry found is older than its second |
| MigrationLedger.Store.Migrate | internal/storage/migrations.go:131-174 | one migration: validation, ledger, audit run, transaction |
| MigrationLedger.Store.ApplyMigrations | internal/storage/migrations.go:117-189 | the loop with `previous` and `changed`, and the no-op run |
| MigrationLedger.SchemaIsLedgered | internal/storage/migrations.go:117-189 | over any number of starts failing at any operation, the ledger lists the committed migrations, each identifier once, and the schema is what running exactly those in that order makes of the first schema |
| MigrationLedger.SuccessLedgersAll | internal/storage/migrations.go:130-177 | a successful start leaves every migration of its list ledgered with its checksum, and no start removes or changes a row |
| MigrationLedger.AppliedListIsNoop | internal/storage/migrations.go:178-187 | a fully applied list changes only audit rows: one no-op row when it succeeds |
| MigrationLedger.SuccessExact | internal/storage/migrations.go:117-189 | when no operation fails, a start succeeds exactly when every migration of its list is valid, none has another checksum in the ledger or earlier in the list, and those not yet ledgered can be run one after the other; it has then run and ledgered exactly those |
| MigrationLedger.FirstObstacle | internal/storage/migrations.go:130-172 | otherwise the first obstacle decides the error (invalid, other checksum, failing run), with the migrations before it applied and nothing else |
| MigrationLedger.SecondStart | internal/storage/migrations.go:178-187 | after a successful start, one with the same list succeeds when nothing fails, and leaves one no-op audit row |
| MigrationLedger.RunTrail | internal/storage/migrations.go:147-176 | whatever operation fails, a migration that is run leaves one audit row: applied, failed, or still running if the end cannot be written; schema and ledger move exactly when its transaction goes through |
| MigrationLedger.SuccessTrail | internal/storage/migrations.go:147-187 | a successful start adds one applied audit run for each migration it ran, from the migration before it in the list |
| MigrationLedger.ChecksumConflict | internal/storage/migrations.go:137-141 | a checksum that differs stops the start, and schema and ledger are those of applying the migrations before it |

## Left out

- One time per request: the source reads the clock several times within a handler; here they agree.
- Identifiers: event, lease and instance identifiers, and what makes an identifier well-formed; 0 or the empty string stands for a missing or malformed one.
- Record fields that no handler branches on, and their validation: titles, instructions, payloads, summaries, histories, session counts.
- Reading the budget from the environment, with its default and its bounds: a budget is any number.
- Slice capacity: lists are values, so two lists sharing spare capacity of one backing array cannot be expressed; the sharing of the records themselves is modelled in `team_store.dfy`.
- Reclaim and deployment plans: the snapshot holds them too, but no modelled request changes them.
- Artifact lists inside the task record: `artifact_upload.dfy` keeps them beside the tasks, and reads the control plane's state as any state at all.
- Waiting in a command poll: each round of it is one `Poll`; wake-ups through the notify channel are not modelled.
- TeamLog.FollowGapFree: a stream whose connection fails or is closed is not covered.
- TeamQueue.PollExact: the ceiling of 50 on the requested limit is applied before the handler's step.
- Read-only handlers: task lists, runtime status (its expiry is `Expire`), artifact lists, download, verification.
- Artifact reconcile and reclaim plans, gateway binding, role switching, sandbox tasks: not part of this model.
- Files on disk, links, directories: a file is its bytes under a key, and a failed operation other than a truncation leaves it as it was.
- Removing stored artifacts: nothing here deletes a final file.
- ArtifactUpload.IsDigest: the source lower-cases a digest before it checks it; here it comes lower-cased.
- Replay to reconnecting clients: the history is shared between streams of one key, evicted per stream, and read on reconnection; here one writer owns it.
- AppVersion.IsSpace: white space and letter case beyond ASCII (and U+0085, U+00A0) are not modelled.
- SQL text, the tables the ledger creates for itself, artifact hash, backup path and times of an audit run: not part of this model.
