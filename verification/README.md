# A verified model of the Codex harness supervisor

The repository is a crash-safe single-writer supervisor: a SQLite ledger driven by operator
commands, background workers, provider events and crashes, with an adapter for the Codex
app-server. This project models its core in Dafny and proves what it guarantees of every run.

**The ledger as a step system.** `LedgerTypes` holds the tables and counters as values,
`Transactions` every transaction as a function from the committed ledger to the next one (`Err`
is a rollback; the partial unique indexes and the revision triggers of the schema are part of
each step), and `Supervisor` the whole node: a committed transaction is one step, a claimed action
is a task with a program counter, `performDispatch` holds the start gate across its steps, a crash
drops the tasks and the gate, and a restart runs recovery. The label of a step carries every choice
the program does not make itself: identifiers, adapter answers (any answer, including one outside
the adapter contract), storage faults (a commit that fails, and one that is durable but reports an
error), scheduling and crashes. `Do` is the step, `After` a run.
`LedgerInvariant` states what every ledger satisfies, one predicate per concern. The `*Pieces`
modules prove each building block of a transaction, table by table; `CommandSteps`, `WorkerSteps`
and `EventSteps` chain them into transactions; `SystemInvariant`, `TaskSteps`, `Quiescence`,
`SystemSteps`, `SystemRuns` and `Recovery` lift them to steps of the system; `SupervisorTheorems`,
`RunTheorems`, `Absorption`, `CommandReplay`, `EventTheorems` and `Redelivery` hold the results, and
`FirstAttempt`, `StrandedWitness` and `RevivalWitness` the runs that show where a promise fails.
`Traces`, `EventTraces` and `StepTraces` follow what every step charges to an attempt's budget, says in
its name, opens for an answer and marks in the log; `BudgetRuns` and `TerminalRuns` build on them.
`Queries` runs the queries of the transactions as loops over the rows; `Node` writes the main
transactions in place with them, and proves each equal to the function the theorems speak of.

**The other cores.** `OutputBudget` (the 64 MiB output ledger by itself), `Utf8` and `SafeText` (chunking and
the usage reserve), `EventQueue` and `EventQueueTheorems` (the adapter's bounded, merging queue),
`LedgerTail`, `FailedTail`, `MappingTypes`, `MappingStore` and `TailTheorem` (the failed-tail proof in
the ledger, the native mapping file, and both running together), `ToolGate` (tool requests, slots and
approvals), `Utf8Encoding`, `CanonicalJson` and `CanonicalParse` (the canonical printer),
`EventReplay` (replay and the follow loop).

**What turned out not to hold as one might expect.**

- The pending counter is *not* always the number of queued requests. A steer action carries the
  request of the steered message (`runtime/control_handlers.go`, line 162). When the adapter answers a
  steer with an outcome outside its contract, `performAction` first marks the attempt unknown through
  that reference (`runtime/actions.go`, line 192), which takes the *steered* request out of the queue
  without touching the counter; the counter catches up only when the following `finishSteer` commits.
  `RunTheorems.BalanceStep` says exactly which step breaks the equality, `RunTheorems.QueueConserved`
  what holds in every state, `RunTheorems.QueueBalanced` that the equality holds while every steer is
  answered within the contract, and `StrandedWitness.CounterCanDiffer` gives the run.
- A message under steering does *not* always have a steer action that is still unresolved. When the
  transaction of `finishSteer` fails and that of `finishAction` does not, the message stays under
  steering with a resolved action. `Absorption.PinStep` says exactly which step breaks the promise, and
  `StrandedWitness.SteerCanBeOrphaned` gives the run.
- An ended attempt does *not* always stay ended. A response that is answered *unknown* after its
  attempt has ended puts the attempt back into the slot when the slot is empty (`setAttemptUnknown`
  does not look at the state it leaves). `Absorption.EndedAbsorbing` says exactly which step does it,
  `Absorption.EndedForGood` that an ended attempt keeps its outcome along every run in which no answer
  for it is in doubt, and `RevivalWitness.EndedCanRevive` gives the run.
- A completed attempt that comes back like this, and had been started, *never* leaves the slot again:
  its answer stays unresolved, so a terminal is only archived and a reconciliation refused
  (`TerminalRuns.RevivedUnresolved`, `TerminalRuns.RevivedStays`). The repair that
  `runtime/approval_race_recovery.go` makes from outside is not part of this model.
- An event recorded under its projection key is *almost* never applied again (for waits also after their
  version has moved; a lost track has no key and marks an attempt that is not unknown yet). The
  exception is a completion. It is stored with the payload that names the newest assistant message, and a
  redelivery is compared with the payload rebuilt from the message that is newest by then
  (`activeTerminalProjectionDigest`). When its attempt has come back and has spoken since, the comparison
  fails, and the event is archived and charged as a new observation. `Redelivery.RecordedRedelivery` says
  exactly when, and `RevivalWitness.RecordedCanReturn` gives the run. While the attempt stays ended its
  newest message is the one named, or its budget is spent, and nothing happens.
- An event that was only *archived* is recorded under another key. Delivered again after a revival of its
  attempt it is projected: `Redelivery.ArchivedRedelivery` gives the exact condition and
  `RevivalWitness.ArchivedCanReturn` the run. A wait for an attempt that is being stopped or is unknown is
  archived once for each version of the attempt (`Redelivery.SuppressedWait`).
- A result recorded by `finish` can be downgraded by a later `activate` that finds no room for the
  started event: `EventQueueTheorems.ResultStability` states the exact condition, and
  `EventQueueTheorems.ResultCanChange` gives the run for any result.
- Memory of the mapping store can be ahead of its directory. After an indeterminate commit a loss of
  power may bring an older file back; `MappingStore.MappingAdvances` says what is never lost.

Identifiers are numbers, drawn by the environment; inserting one that exists violates its key. A
content hash is represented by the value that is hashed.

## Model

| member | source | states |
|---|---|---|
| SupervisorTheorems.RunsSafe | runtime/recovery.go:85-134 | every state of every run, from a fresh volume through any commands, worker steps, deliveries, faults, crashes and restarts, satisfies the system invariant |
| SupervisorTheorems.RunningStep | runtime/actions.go:54-79 | one step of a running node of any kind keeps the invariant, acts in one dialog that is neither deleted nor quiescent under a hold, and adds nothing to the counting debt, brings back no ended attempt and resolves no steer except in the one kind of commit that does each |
| SupervisorTheorems.HoldNeverCrossed | runtime/actions.go:227-325 | a step that issues a Start or Resume does so in a state in which no hold without an outcome covers the attempt's dialog, under every interleaving of claim, requeue, stop, dispatch, install and crash |
| SupervisorTheorems.AtMostOnceStart | runtime/actions.go:106-142 | in every run with crashes an attempt is started or resumed at most once, and no request has two attempts |
| SupervisorTheorems.SingleSlot | runtime/schema.go:476 | the slot names an attempt exactly when it is the one live attempt, occupancy is idle exactly when the slot is empty, and recovery never fails |
| SupervisorTheorems.LogContiguous | runtime/events.go:12-35 | stored event numbers are exactly 1 to the counter, and no step changes a stored event |
| RunTheorems.QuiescenceStable | runtime/hold.go:251-375 | after a successful quiescence proof every later state under the same hold keeps every dialog of the scope settled and out of the slot; no dialog enters a node scope |
| RunTheorems.ParkedByRevision | runtime/schema.go:571-583 | two proofs of one scope with the same queue revision list the same parked requests with the same places |
| RunTheorems.DeletedFrozen | runtime/logical_delete.go:69-203 | no later step changes, adds or removes a request, attempt, message, action, approval, input or tool call of a deleted dialog, and it has no queued request or live attempt |
| RunTheorems.OneOutcome | runtime/hold.go:501-528 | accepted and rejected records are disjoint in every run, and an outcome once stored is kept by every step |
| CommandReplay.Resubmission | runtime/command.go:99-128 | once a submission is accepted or rejected, in every state any run reaches afterwards a submission under the same id changes nothing: the same command gets the original receipt, or not_found exactly if the dialog the outcome was recorded for is deleted by then, and any other command gets id_conflict; a deletion that names the id commits nothing either |
| CommandReplay.DeletionReplay | runtime/logical_delete.go:52-113 | the same for the id a committed deletion writes: in every later state it gets id_conflict as a command, no deletion that names it commits anything, and its operation is repeated successfully by the same request and by no other |
| RunTheorems.QueueConserved | runtime/command_handlers.go:114-142 | in every run the pending counter is the number of queued requests plus the number of steered messages whose request was lost without an attempt, within 0..100 |
| RunTheorems.DispatchInOrder | runtime/dispatch.go:77-135 | a dispatch serves, of all queued requests outside every hold, the one strictly first in line, and puts its attempt into the empty slot |
| RunTheorems.BalanceStep | runtime/actions.go:191-195 | from a balanced state a step leads to a balanced state if and only if it is not the commit of a contradicted steer's mark on a known attempt whose steered request is still queued |
| RunTheorems.QueueBalanced | runtime/actions.go:419-466 | along every run in which no steer call is answered outside the contract, whatever other calls are answered, the pending counter is exactly the number of queued requests |
| StrandedWitness.CounterCanDiffer | runtime/control_handlers.go:162 | a concrete run of create, enqueue, dispatch, start, enqueue, steer and an out-of-contract answer ends with a counter that differs from the queue |
| Absorption.EndedAbsorbing | runtime/observe.go:600-629 | from any reachable state a step leaves an ended attempt ended with the same outcome if and only if it is not the commit of a doubtful answer for that attempt while the slot is empty |
| Absorption.EndedForGood | runtime/actions.go:506-526 | along every run in which no answer for an ended attempt is or comes to be in doubt, the attempt keeps its outcome |
| RevivalWitness.EndedCanRevive | runtime/actions.go:506-526 | a concrete run of tool, approval request, completion, approval answer and an unknown response brings a completed attempt back |
| Absorption.PinStep | runtime/actions.go:401-405 | from a reachable state in which every message under steering has an unresolved steer action, a step leads to such a state if and only if it is not the commit that resolves the last one of a message still under steering |
| StrandedWitness.SteerCanBeOrphaned | runtime/actions.go:419-466 | a concrete run in which the verdict of a steer fails to commit and the end of its action commits leaves a message under steering with no unresolved steer |
| Redelivery.RecordedRedelivery | runtime/observe.go:902-984 | an event recorded under its projection key, delivered again in any later state of any run, across crashes, stops, the loss of the slot and revivals, changes the ledger if and only if it is a completion whose attempt is back in the slot with another newest assistant message than the one on record, no terminal is archived for it in the log or the late rows, the event is valid and the budget is open |
| Redelivery.RedeliveryIdempotent | runtime/observe.go:240-291 | so every recorded event that is not a completion, a wait of a past version included, changes nothing when it is delivered again in any later state |
| RevivalWitness.RecordedCanReturn | runtime/observe.go:955-984 | a concrete run completes an attempt, brings it back by a doubtful answer, lets it speak and archives its own completion as a new observation |
| TerminalRuns.SaidIsNewest | runtime/observe.go:767 | in every reachable state the message on an attempt's row is what the terminal's query returns: of all its assistant messages the one with the highest sequence, with its text |
| TerminalRuns.RevivedUnresolved | runtime/observe.go:741-757 | in every reachable state a completed attempt that is live again has an unresolved answer, so a terminal for it takes the archive path |
| TerminalRuns.RevivedStays | runtime/reconcile.go:87-96 | a started attempt that is live again after its completion holds the slot as unknown in every later state of every run |
| Redelivery.ArchivedRedelivery | runtime/observe.go:902-953 | an event archived in the log, delivered again in any later state, changes the ledger if and only if its attempt holds the slot again and the event can be projected there, its live key being free |
| Redelivery.SuppressedWait | runtime/observe.go:107-139 | a wait for a stopping or unknown attempt changes the ledger if and only if the present version has none on record and the budget is open |
| RevivalWitness.ArchivedCanReturn | runtime/observe.go:902-953 | a concrete run projects an event that it had archived before |
| EventTheorems.DeliveredTwice | runtime/observe.go:84-184 | delivering any accepted event twice in a row changes nothing the second time, whichever of the projection, archive and terminal paths the first delivery took, events without a key included, and it is accepted as a repeat unless it is a completion whose output the budget had cut off |
| EventTheorems.OutsideSlotFramed | runtime/observe.go:1183-1248 | an event for an attempt outside the slot changes the log and the late ledger by at most one entry each and nothing else |
| Node.HarnessNode.SubmitCommand | runtime/command.go:45-200 | the in-place submission commits the ledger and gives the reply that OneOutcome, Resubmission and the run theorems speak of, in every branch |
| Node.HarnessNode.DispatchCandidate | runtime/dispatch.go:60-172 | the in-place dispatch under both locks looks the first unheld request, the next generation and the failed-tail proof up again and commits the ledger of DispatchInOrder and the run theorems, or rolls back in exactly the stale and colliding cases |
| Queries.CoveringHold | runtime/dispatch.go:84-86 | the loop over the holds finds an open hold that covers the dialog, and none exactly if the dialog is not held |
| Queries.StoppingHold | runtime/hold.go:530-575 | the loop finds a hold the command is rejected under, and none only if no hold stops it |
| Queries.FirstQueued | runtime/dispatch.go:82-87 | the loop finds the first queued request outside every hold, and none only if there is none |
| Queries.GenerationAfter | runtime/dispatch.go:103 | the loop yields the generation after the highest one made for the input message |
| Queries.StartInProgress | runtime/hold.go:146-154 | the nested loops find a decided, unstarted dispatch in the scope if and only if there is one |
| Queries.ScopeHeld | runtime/hold.go:155-163 | an open hold of the scope, of the node or under it is found if and only if there is one |
| Queries.AnotherLive | runtime/schema.go:476 | another live attempt is found if and only if there is one |
| Queries.DialogSettled | runtime/command_handlers.go:72-82 | the loops over seven tables accept a dialog if and only if it is settled and has nothing queued |
| Node.HarnessNode.ClaimAction | runtime/actions.go:106-157 | the claim takes the oldest claimable action of its lane, outside every hold, and none only if there is none |
| Node.HarnessNode.Start | runtime/actions.go:336-388 | markStarted in place commits the ledger of the run theorems exactly for a dispatching attempt in the slot, and otherwise rolls back |
| Node.HarnessNode.MarkAttemptUnknown | runtime/observe.go:577-629 | the mark in place commits exactly the specified ledger, and rolls back when another attempt is live |
| Node.HarnessNode.SettleSteer | runtime/actions.go:419-466 | finishSteer in place, including the case that its last step fails, commits exactly the specified ledger or nothing |
| Node.HarnessNode.Install | runtime/hold.go:88-224 | installing in place runs the pre-start and scope queries and commits the ledger of HoldNeverCrossed, answers a repeated request from the stored hold, and otherwise rolls back |
| Node.HarnessNode.Release | runtime/hold.go:392-499 | releasing in place commits the outcome only for the exact hold and revision, answers a repeated request from the stored outcome, and otherwise rolls back |
| Node.HarnessNode.DeleteLogicalDialog | runtime/logical_delete.go:21-209 | tombstone, command receipt, hold release and operation receipt are committed together or not at all |
| Node.HarnessNode.ForgetActions | runtime/recovery.go:97-99 | the loop leaves no action pending or inflight and changes no other |
| Node.HarnessNode.RecoverStartup | runtime/recovery.go:85-134 | recovery in place commits the specified ledger; on an invariant ledger neither inconsistency error occurs and the invariant holds after it |
| CommandSteps.CreateStep | runtime/command_handlers.go:28-49 | creating a dialog keeps the invariant and touches no row of any dialog |
| CommandSteps.EnqueueStep | runtime/command_handlers.go:102-155 | enqueueing keeps the invariant, counters included, and touches one dialog |
| CommandSteps.CancelStep | runtime/command_handlers.go:157-195 | cancelling keeps the invariant, also for a retried request and for one under steering |
| CommandSteps.ResumeStep | runtime/command_handlers.go:197-216 | a resumption is accepted exactly at the queue version it names; it unpauses the queue, moves every queue revision by one if it was paused, changes no request or message and keeps the invariant |
| CommandSteps.StopStep | runtime/control_handlers.go:12-49 | stopping keeps the invariant and yields an action bound to its attempt |
| CommandSteps.RetryStep | runtime/control_handlers.go:51-126 | a retry adds a request for a spent message and keeps the invariant |
| CommandSteps.SteerStep | runtime/control_handlers.go:128-164 | a steer takes a waiting message of a queued request and yields an action that carries that request |
| CommandSteps.ApprovalStep | runtime/control_handlers.go:166-187 | answering an approval keeps the invariant and binds the action to the answered row |
| CommandSteps.InputStep | runtime/control_handlers.go:189-220 | answering an input adds a message outside the queue and binds the action to the answered row |
| CommandSteps.SubmitStep | runtime/command.go:130-190 | a submission changes nothing, records one rejection or records one acceptance, keeps the invariant and acts only in the dialog it addresses |
| WorkerSteps.DispatchStep | runtime/dispatch.go:77-156 | a dispatch takes a queued request of an idle node outside every hold and keeps the invariant |
| WorkerSteps.SetUnknownKeeps | runtime/observe.go:600-629 | marking an attempt unknown through its own request keeps the invariant, also when it revives an ended attempt |
| WorkerSteps.SetUnknownSteered | runtime/observe.go:615 | marking through a steer's reference trades one queued request for one message in debt |
| WorkerSteps.StartedStep | runtime/actions.go:336-388 | recording a start keeps the invariant and starts no other attempt |
| WorkerSteps.RefusedStep | runtime/observe.go:527-575 | a refused start ends the attempt as failed without effect and frees the slot if it still holds it; otherwise it leaves one uncharged late row and no attempt or request changes |
| WorkerSteps.FinishSteerStep | runtime/actions.go:419-466 | every verdict on a steer keeps the invariant; the counter loses one exactly when the queue or the debt does |
| WorkerSteps.ResponseStep | runtime/actions.go:506-526 | every verdict on an approval or input keeps the invariant and writes only rows of the attempt it answers |
| EventSteps.ObserveStep | runtime/observe.go:84-184 | a delivered event keeps the invariant and acts only in its attempt's dialog, which has no tombstone |
| EventSteps.TerminalStays | runtime/observe.go:737-849 | a terminal keeps the invariant; it leaves the attempt unknown in the slot if an answer is unresolved or its outcome or effect is not known, and otherwise ends it with its outcome and frees the slot, unless it is on record already |
| EventSteps.ReconcileStep | runtime/reconcile.go:71-134 | reconciliation, with the assistant message it may project first, touches only the unknown attempt that holds the slot and keeps the invariant |
| EventTraces.ReconcileOutcome | runtime/reconcile.go:87-168 | a reconciliation commits only with every effect resolved; it then ends the attempt with the outcome it was given and frees the slot unless an end is on record, and a completion's output is the newest assistant message unless the budget has cut it off |
| EventSteps.ArtifactStep | runtime/artifact.go:189-220 | an artifact's charge, marker and stop keep the invariant |
| HoldPieces.DeleteKeeps | runtime/logical_delete.go:69-203 | deletion keeps the invariant and acts only in the deleted dialog |
| Quiescence.ObserveSpares | runtime/observe.go:107-139 | a delivery never disturbs a deleted dialog, nor a settled one under a hold |
| Quiescence.SettledElsewhere | runtime/hold.go:299-361 | a dialog in which a step does not act stays settled |
| SystemRuns.CommitStep | runtime/actions.go:159-225 | whatever transaction a task commits, or fails to commit, keeps the system invariant |
| SystemRuns.UnheardStep | runtime/actions.go:138-140 | a claim or a start whose commit is durable but reports an error, so that the worker drops the action or takes the started attempt for unknown, keeps the system invariant |
| SystemRuns.ReadAttemptStep | runtime/actions.go:244-257 | a dispatch becomes ready only for an attempt that is still dispatching, and then no hold covers it |
| SystemSteps.InstallStep | runtime/hold.go:104-110 | installing under the free gate keeps every ready dispatch uncovered |
| Recovery.RecoverWorks | runtime/recovery.go:106-119 | recovery succeeds on every invariant ledger and makes at most one attempt newly unknown |
| Recovery.RestartQuiet | runtime/recovery.go:97-134 | a settled dialog does not notice a restart |
| EventReplay.ReplayEvents | runtime/replay.go:23-94 | a window is contiguous behind its cursor and free of deleted dialogs' events; on a contiguous log a valid cursor is refused only because of such an event |
| EventReplay.ReadWindow | runtime/replay.go:54-77 | the loop returns consecutive rows within the byte budget or reports a gap |
| EventReplay.Follow | api/server.go:999-1034 | a follower sends one contiguous, duplicate-free run of the log from its cursor, each event free of deletion when read, and stops rather than skips at a deleted dialog's event |
| EventReplay.RunsArePolls | runtime/replay.go:30-46 | the states of any run, at rising indices, are logs a follower may poll |
| OutputBudget.OutputLedger.ChargeAttempt | runtime/output_budget.go:25-62 | the live charge answers and stores exactly as specified |
| OutputBudget.OutputLedger.ChargeArchived | runtime/output_budget.go:76-95 | the archived charge answers exactly as specified and yields the row its caller inserts |
| OutputBudget.LedgerTracksOffered | runtime/output_budget.go:97-106 | until the offered total passes 64 MiB the ledger holds exactly it; from then on, and only then, the subtractive test reports an overflow |
| OutputBudget.AnswersArePlain | runtime/output_budget.go:25-95 | over any mix of live, artifact and late postings every answer is the one the plain sum of the earlier postings gives |
| OutputBudget.OverflowOnce | runtime/output_budget.go:39-51 | after the first overflow every valid posting is refused, so it is reported once |
| BudgetRuns.BudgetKept | runtime/output_budget.go:25-106 | in every reachable state live and archived output of an attempt are together within 64 MiB or show by one byte that the limit was passed, and an attempt past its limit is charged nothing in any later state |
| BudgetRuns.AccountsAreExact | runtime/output_budget.go:25-106 | along every run from a fresh volume the account of an attempt equals the bytes that the steps of the run have put on it, live, archived, reconciled and by artifacts, until they pass 64 MiB, and it is found over its limit exactly from then on |
| BudgetRuns.LimitCrosses | runtime/artifact.go:189-220 | a step that writes the event marking an attempt's limit, schedules the stop for its output or takes a charge past the limit is the step that takes the attempt over the limit |
| BudgetRuns.LimitOnce | runtime/output_budget.go:39-51 | along every run at most one step marks the limit of an attempt, stops it for its output or charges it past the limit |
| Utf8.NearBoundary | runtime/safe_text.go:383-385 | every position of a well-formed text is at most three bytes past a character boundary |
| SafeText.BackOff | runtime/safe_text.go:379-388 | the back-off loop finds the longest well-formed piece within its limit |
| SafeText.CutChunks | runtime/safe_text.go:371-399 | cutting succeeds on exactly the well-formed texts; chunks are non-empty, bounded, well-formed, tile the text, and all but the last are nearly full |
| SafeText.TilesJoin | runtime/safe_text.go:378-399 | the chunks put together are the text |
| SafeText.ChunksFitManifest | internal/transcriptview/types.go:108-110 | a text within the size limit never needs more chunks than a manifest may list |
| SafeText.Preview | runtime/safe_text.go:162-171 | the preview is a well-formed prefix within its limit that loses at most three bytes |
| SafeText.ReserveKept | runtime/safe_text.go:488-500 | over any run the counters stay in bounds and an unsealed usage has room for one marker of reserve size |
| SafeText.CaptureFails | runtime/safe_text.go:502-528 | no usage update ever exceeds its bound; a capture fails exactly when it needs a marker larger than the reserve |
| SafeText.SealedForever | runtime/safe_text.go:323-325 | after the first marker nothing is counted any more |
| EventQueue.AttemptRuntime.ActivateRuntime | adapters/codex/stream.go:35-56 | activation in place is the step of CoalescingRefines and ResultStability: the started event goes ahead of everything pending, or the queue collapses |
| EventQueue.AttemptRuntime.PushEvent | adapters/codex/stream.go:58-77 | push in place is the step of CoalescingRefines: closed queues ignore it, a foreign event collapses the queue |
| EventQueue.AttemptRuntime.AppendLocked | adapters/codex/stream.go:87-106 | merging and numbering in place are those whose text and indices CoalescingRefines accounts for |
| EventQueue.AttemptRuntime.OverflowLocked | adapters/codex/stream.go:108-118 | overflow in place leaves one unknown event, nothing pending, an unknown result and a closed queue |
| EventQueue.AttemptRuntime.FinishAttempt | adapters/codex/stream.go:120-150 | the finish loop admits events one by one and stops at the first that collapses the queue; otherwise it records the result |
| EventQueue.AttemptRuntime.Next | adapters/codex/stream.go:209-219 | Next takes the first event and leaves the rest |
| EventQueueTheorems.CoalescingRefines | adapters/codex/stream.go:87-106 | without overflow, delivered and queued events together carry exactly the accepted ones byte for byte and in order, deltas of each message are numbered 0,1,2,..., and no list exceeds 1024 |
| EventQueueTheorems.OverflowLeavesUnknown | adapters/codex/stream.go:108-118 | after an overflow the stream is closed with an unknown result and the consumer sees a true prefix followed by one unknown event |
| EventQueueTheorems.ResultStability | adapters/codex/stream.go:48-49 | a recorded result changes in exactly one step: an activation that finds a closed, healthy queue with 1024 pending events |
| EventQueueTheorems.ResultCanChange | adapters/codex/stream.go:48-49 | for any result a concrete run of 1024 events, the finish and the activation changes it to unknown |
| FailedTail.ValidFailedTail | adapters/codex/failed_tail_retry.go:11-38 | the two loops accept a proof if and only if it covers every other native attempt of the dialog at or after the boundary, each once, terminal, on the same thread and policy, and one of them of the boundary itself |
| FailedTail.FailedTailProof | runtime/failed_tail_retry.go:18-103 | over the rows of its query the ledger writes a proof for exactly the tails of 1 to 100 attempts that start at the input and that its own tables show to have failed for the unsupported model without effect, output, activity or other late observation |
| LedgerTail.TailQueryAnswered | runtime/failed_tail_retry.go:19-29 | the query has an answer in every ledger: every started attempt of the dialog at or after the input, once, in order |
| TailTheorem.RecheckProof | runtime/actions.go:270-283 | the stored proof is passed on if and only if the ledger, queried again, still yields it |
| TailTheorem.ActivationBelowHighWater | adapters/codex/store.go:234-266 | in every interleaving of the supervisor with the mapping store, faults, crashes and restarts of both included, a turn below the high-water mark is activated only if its dispatch checked the proof against a ledger state of the run, and that ledger shows every other native attempt of the dialog at or after the input, with the same input, policy and prompt, to have failed without effect, output or other observation |
| MappingStore.OpenStore | adapters/codex/store.go:76-119 | opening refuses exactly the directories whose visible file is invalid |
| MappingStore.NativeStore.StartProcess | adapters/codex/store.go:121-136 | a new process generation in place, under every commit outcome: one higher, and returned only if committed |
| MappingStore.NativeStore.StoreIntent | adapters/codex/store.go:156-190 | an intent in place, under every commit outcome: new, of a running process, and below the high-water mark only with a proof that holds |
| MappingStore.NativeStore.Acknowledge | adapters/codex/store.go:192-215 | a thread acknowledgement in place, under every commit outcome: an attempt of this process, once, on the thread it resumes |
| MappingStore.NativeStore.OpenTurn | adapters/codex/store.go:217-232 | a turn intent in place, under every commit outcome: only after its thread is acknowledged |
| MappingStore.NativeStore.Activate | adapters/codex/store.go:234-266 | an activation in place, under every commit outcome: same thread, and a boundary at, above or provably below the high-water mark |
| MappingStore.NativeStore.Terminal | adapters/codex/store.go:268-292 | a terminal in place, under every commit outcome: of an active turn, repeatable |
| MappingStore.NativeStore.CommitCandidate | adapters/codex/store.go:301-316 | memory follows the visible file, and an indeterminate commit poisons the store |
| MappingStore.DecisionAdvances | adapters/codex/store.go:121-292 | every transition keeps the mapping valid, the generation rising, threads fixed, boundaries from moving back and attempts moving forward |
| MappingStore.MappingAdvances | adapters/codex/store.go:301-367 | over every run of requests, commit faults, restarts and losses of power the mapping is valid; memory advances with every step but a restart that loses an unsynced rename, and even then nothing confirmed goes back; a confirmed write is all of memory |
| MappingStore.NothingAfterPoison | adapters/codex/store.go:294-299 | after an indeterminate commit nothing is written until a reopen |
| ToolGate.SharedGate.ClaimToolRequest | adapters/codex/events.go:716-730 | the claim in place is the step whose single use ItemsRunOnce rests on: it succeeds once per item and marks it requested |
| ToolGate.SharedGate.ReserveToolCall | adapters/codex/events.go:397-412 | the reservation in place is the step SlotsAreReads counts: it takes one slot of the adapter and one of the attempt, or neither |
| ToolGate.SharedGate.ReleaseToolCall | adapters/codex/events.go:414-421 | the release in place is the step SlotsAreReads counts: it returns both slots together |
| ToolGate.SharedGate.BeginResponse | adapters/codex/adapter.go:976-993 | the first critical section in place is the step that makes an approval single-use: it succeeds only for the bound attempt and hash, and only once |
| ToolGate.ItemsRunOnce | adapters/codex/events.go:289-395 | under every interleaving of claims, routing, approvals, the check, run and answer of each response and read, and completions, a provider item runs at most once, and every run that is not a read follows an allow_once of the same attempt and action hash |
| ToolGate.SlotsAreReads | adapters/codex/events.go:397-421 | the reserved slots are exactly the reads in progress, in all and per attempt, within 64 and 8 |
| CanonicalJson.AppendCanonical | internal/harnessprotocol/canonical.go:36-86 | the printer extends its buffer by the UTF-8 bytes of the canonical form and refuses exactly the values with a number outside the profile |
| CanonicalJson.AppendString | internal/harnessprotocol/canonical.go:88-115 | the string loop appends the bytes of the quoted, escaped text |
| CanonicalJson.SortKeys | internal/harnessprotocol/canonical.go:63-67 | keys compared by their bytes come out ascending and complete, whatever order the map was iterated in |
| Utf8Encoding.OrderAgrees | internal/harnessprotocol/canonical.go:67 | the order of two texts by code points is the order of their UTF-8 bytes |
| Utf8Encoding.BytesInjective | internal/harnessprotocol/canonical.go:110 | texts with equal UTF-8 bytes are equal |
| CanonicalJson.OneListing | internal/harnessprotocol/canonical.go:67 | two ascending listings of the same keys are equal, so iteration order cannot show |
| CanonicalParse.RoundTrip | internal/harnessprotocol/canonical.go:36-115 | a prefix parser recovers every printable value from its text followed by anything that does not continue a number |
| CanonicalParse.PrintingInjective | internal/harnessprotocol/canonical.go:16-33 | equal canonical text means equal values, whatever follows |
| CanonicalParse.CanonicalBytesInjective | internal/harnessprotocol/canonical.go:16-33 | equal canonical bytes, and so equal inputs of the command hash, mean equal values |
| CanonicalParse.CanonicalBytesOrdered | internal/harnessprotocol/canonical.go:63-80 | the canonical bytes are well-formed UTF-8 and list members in bytewise order of their keys |
| CanonicalParse.Recanonical | runtime/schema.go:345-353 | canonical text parses to a value whose canonical text it is |

## Left out

- HTTP routing, authentication, wire-schema validation, read views, SSE framing, logging and timestamps: plumbing over the ledger. Whether an event or its artifacts pass validation is an argument of the step.
- The administrative `state_version` counters that the triggers also move: only the queue revisions are modelled; they are what a quiescence proof is compared by.
- The order of blocked reasons and the texts of errors: reasons are a set and a refusal is a small enumeration.
- Which of several covering holds a rejection names: the lookup's answer is an argument of the step.
- Worker lane capacities: any number of actions may be in progress at once, which only adds behaviours.
- `recoverPristinePolicy`, `RecoverCompletedApprovalRace` and the historical recovery verifiers: one-off repairs over fixed evidence.
- Provider login, node settings, the settings fence, the process bridge and the session handshake: foreign processes.
- History export, file publication, permissions and SQLite pragmas: operating-system effects; only the rename-then-sync fault of the mapping store is kept.
- ReconcileStep: covers an answer that is terminal; one that leaves the attempt running or waiting changes no row.
- Encoding and decoding of the usage counters as text, and the interaction limits of pending approvals and inputs: they would only add easy members; the limit's answer is an argument.
- The remaining ledger transactions (projection and archive of events, artifacts, reconciliation, response settlement) are modelled as functions on the ledger, not also in place: update in place inside one transaction is not visible to other steps.
- FinishAttempt: assumes, as every method of the runtime keeps, that a failed queue is closed.
