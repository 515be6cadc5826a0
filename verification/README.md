# OpenBox agent backend: verified protocols

OpenBox runs AI agents for many users from several API workers. What a worker may do next is never decided in its own
memory: it is read from database rows that any worker can change, that outlive crashes, and that expire with the
database clock. This project models those rows and the transactions on them in Dafny 4.11, and proves what the
backend relies on: a paid call is sent once, a replaced run never writes again, an input is consumed once, a closed gate
stays closed. Three computations without shared rows are included: native Tool Search streams, history compaction
and run timing.

`dafny verify dfyconfig.toml` checks everything.

## How the model is built

Each stateful source file appears in two connected forms.

* **Transactions as functions.** `Driver.Reserve`, `EffectLedger.Settle`, `Inbox.ClaimOnce`, `ResourceGate.Admit`
  and their siblings map the rows a transaction finds to the rows it leaves and to its answer. They follow the
  source's branches in order, refusals and no-ops included.
* **Classes as the source writes them.** `DriverTable`, `EffectRecord`, `InboxTable`, `ResourceGate`, `RunTimer` and
  `Normalizer` update fields in place, loop over rows and return early; each method is proved equal to its function.

Runs are arbitrary sequences of transactions of arbitrary workers. A worker may present any lease, claim, handle or
record at any time, so stale, replayed and invented ones are all covered. A crash is a worker that issues no further
transaction; a worker's local memory between two transactions of one recovery pass is explicit (`LedgerRuns.Frame`).
The clock advances by any amount between transactions. Sessions are created under unused ids and softly deleted by
their owners; neither is ever undone.

| file | what it holds |
|---|---|
| `common.dfy` | options, ids, small set facts |
| `driver.dfy`, `driver_runs.dfy`, `driver_laws.dfy` | the per-session driver lease, its fence, recovery and quota, and what each transaction does for its caller |
| `effect_ledger.dfy`, `ledger_runs.dfy`, `ledger_theorems.dfy` | the external-effect ledger, joint with the driver |
| `ledger_dispatch.dfy`, `ledger_recovery.dfy` | the ordinary dispatch of an effect, when recovery may step in, and what a recovery pass leaves |
| `ledger_evidence.dfy`, `ledger_misreports.dfy` | what an effect's evidence log says about its row, and when it does not |
| `resource_gate.dfy`, `gate_runs.dfy`, `gate_laws.dfy` | the resource admission gate, the request bracket around it, and what binding, closing and handing over do |
| `inbox.dfy`, `inbox_table.dfy`, `inbox_runs.dfy`, `inbox_laws.dfy` | the durable inbox, joint with the driver |
| `inbox_handover.dfy`, `inbox_turns.dfy`, `inbox_triggers.dfy`, `inbox_example.dfy`, `inbox_mixed.dfy` | claims handed over between generations while other workers go on |
| `native_search.dfy`, `native_plan.dfy`, `native_normalizer.dfy`, `native_laws.dfy` | native Tool Search: plan, stream normaliser, replay |
| `native_calls.dfy`, `native_acceptance.dfy` | which streams the normaliser accepts and what it passes on, said of the finished items alone |
| `compaction.dfy` | request chunking and tail selection |
| `run_timing.dfy`, `wait_union.dfy`, `phase_costs.dfy` | run timing, the shared wait counter against the union of all waits, and what each phase is charged |

## Findings

* **A recovery claim can be handed back.** `abandon_effect_before_dispatch` compares the claim but does not ask for a
  dispatch claim. A recovery worker that abandoned its claim on a never-sent row would reopen that row for dispatch.
  `LedgerTheorems.NothingSentAfterRecovery` proves that nothing is sent after a recovery claim over every run in which
  no recovery claim is abandoned while its session is open. `LedgerTheorems.HandingBackIsUnsafeExactlyWhenOpen` proves
  that this is the exact condition: after such an abandon a late send is reachable if and only if the session was still
  open. `LedgerTheorems.LateSendExample` is a concrete run from an empty database.
* **The evidence log can disagree with its row.** A worker names the phase of its own progress entries, and the free-form
  evidence of a provider decision may carry a `state` that replaces the logged one or be too large to keep any.
  `LedgerMisreports.ProgressExample` is a run after which an acceptance and a progress entry named `accepted` leave two
  rows with the same log, one accepted and one submitting; `LedgerMisreports.DeferralExample` is a run that leaves a row of
  unknown outcome whose log says accepted. `LedgerEvidence.ProgressIsExplainedExactly` and
  `LedgerEvidence.DeferralIsExplainedExactly` give the exact condition for each call, and
  `LedgerEvidence.EvidenceExplainsTheRow` proves that the log determines the row over every run whose callers log what
  they do.
* **The shared wait counter can miss ticks.** A wait reads the clock once for its own counter and again for the shared
  one. `WaitUnion.ExternalIsTheUnionOfAllWaits` accounts for every tick: the union of all waits is the shared counter plus
  the ticks at which the clock advanced with a provider or network wait in progress and the shared counter at rest, so
  the two are equal if and only if no such tick occurs. `WaitUnion.MissedTickExample` is a run in which one does.
* **Rebinding trusts its caller** that the record and the lease name the same session.
  `InboxExample.UnpairedRebindingExample` is a reachable state in which a rebinding that does not takes a claim from a live
  generation and moves its claim generation from 2 back to 1. In states reached by paired rebindings, a further rebinding
  takes a live claim if and only if its record names another session whose run is live
  (`InboxGenerations.RebindingTakesALiveClaimExactly`). In every reachable state a claim generation goes back exactly at a
  rebinding from a larger generation to a smaller one (`InboxGenerations.GoesBackExactly`).
* **A late rebinding can mix turns.** `InboxMixed.LateRebindingExample` is a run in which a generation claims input of its
  own before its predecessor's claim is rebound to it, and then holds two turns. A rebinding keeps one turn per generation
  if and only if what it moves agrees with what the target already holds (`InboxTurns.RebindKeepsOneTurnExactly`), which
  it does whenever claims are rebound first.
* **The driver's trigger need not name the turn.** A transcript write may bind any Message of the session.
  `InboxTriggers.MisnamedTriggerExample` is a run in which it then names no turn that the generation holds. One transaction
  keeps the trigger on the turn of everything held if and only if a bound trigger is that turn and a rebinding moves rows
  of the turn its lease's trigger names (`InboxTriggers.TriggerStaysNamedExactly`); a takeover followed at once by its
  rebinding always does (`InboxTriggers.TakeoverThenRebindingNames`).
* **A `response.completed` without an output list does not complete the stream** in the normaliser; further events are
  still accepted (`NativeStreams.EmptyCompletionExample`). An accepted stream is completed if and only if its last event
  carries the list (`NativeStreams.CompletedByTheLastEvent`).

## Model

| member | source | states |
|---|---|---|
| `Driver.DriverTable.ReserveRun` | backend/agent/driver.py:955-1081 | a new generation is granted only on an open session with an idle or absent row, below the user's quota counted at the current clock; every refusal leaves the table alone |
| `Driver.DriverTable.ReserveRecoveredRun` | backend/agent/driver.py:1084-1191 | only the exact expired marker is taken over, to generation + 1 with its trigger unchanged, still under the quota |
| `Driver.DriverTable.ReserveAbortedRunSettlement` | backend/agent/driver.py:1194-1288 | the hand-off needs the exact released generation and a completely empty idle row, and checks no quota |
| `Driver.DriverTable.RenewLease` | backend/agent/driver.py:512-559 | a renewal extends only the exact unexpired lease, else reports it lost and changes nothing |
| `Driver.DriverTable.AdvancePhase` | backend/agent/driver.py:668-719 | a phase change needs the exact unexpired lease and never enters idle |
| `Driver.DriverTable.BindTriggerMessage` | backend/agent/driver.py:721-747 | the trigger is bound only under the exact unexpired lease |
| `Driver.DriverTable.ReleaseLease` | backend/agent/driver.py:749-835 | release empties the row but keeps its generation, and only under the exact unexpired lease |
| `Driver.DriverTable.PreserveLease` | backend/agent/driver.py:837-899 | preserving expires the owner's own non-idle row at once and may also hit an already expired one |
| `Driver.DriverTable.AssertRunFence` | backend/agent/driver.py:319-391 | the fence admits a write exactly for the owned session's current run and generation with an unexpired non-idle lease |
| `DriverRuns.QuotaHolds` | backend/agent/driver.py:294-316 | for every user and every run, live generations not created by the settlement hand-off never exceed the limit, so all live ones exceed it by at most the live hand-offs |
| `DriverRuns.StepFencing` | backend/agent/driver.py:1035-1063 | one transaction raises a session's generation by at most one, and a generation live after it was live before it under the same run and user |
| `DriverRuns.DeadForever` | backend/agent/driver.py:534-559 | a generation that has been replaced or whose lease has run out is never live again and none of its writes is accepted |
| `DriverRuns.FencedWritesNeverGoBack` | backend/agent/driver.py:319-391 | the generations of all accepted fenced writes of a session form a non-decreasing sequence |
| `DriverRuns.OneWriterAtATime` | backend/agent/driver.py:351-391 | at one moment the fence admits one user, run and generation, and no earlier generation ever again |
| `DriverRuns.HandoffSeesNoReplacement` | backend/agent/driver.py:1218-1279 | if the hand-off of a released generation is granted, no generation wrote between the release and it |
| `DriverRuns.MarkerStep` | backend/agent/driver.py:866-884 | one transaction leaves an expired marker as it is or replaces it by an exact takeover |
| `DriverRuns.MarkerLeavesOnlyByTakeover` | backend/agent/driver.py:1135-1171 | over every run an expired marker survives stale owners and new prompts until an exact takeover to generation + 1 that carries its trigger |
| `DriverLaws.NoSessionIsStuck` | backend/agent/driver.py:955-1191 | in every reachable state an open runnable session below the quota is either running and a prompt is told by whom, or holds a marker whose takeover would be granted now, or is free and the prompt gets the next generation |
| `DriverLaws.HeldLeaseSurvives` | backend/agent/driver.py:512-559 | a lease with longer to go than a run lasts is still held at its end, whatever anyone but its holder giving it up does |
| `DriverLaws.HeartbeatKeepsTheLease` | backend/agent/driver.py:512-559 | a granted renewal or phase change keeps the session for a full lease, and the next renewal within it is granted |
| `DriverLaws.PreservedIsRecoverable` | backend/agent/driver.py:837-899 | a preserved lease is a marker at once, its generation never writes again, and at the same clock the takeover of its record is granted with its trigger |
| `DriverLaws.ReleasedIsFree` | backend/agent/driver.py:749-835 | after a release the generation never writes again, and at the same clock both the next prompt and the settlement hand-off are granted |
| `DriverLaws.BoundTriggerReachesTheSuccessor` | backend/agent/driver.py:394-425 | a trigger bound by the holder or inside a fenced write is the one the takeover after a preserve starts with |
| `DriverLaws.StopIsGrantedExactly` | backend/agent/driver.py:1291-1380 | a stop is granted if and only if the asker owns a live row and, when naming a run and generation, names exactly that one |
| `DriverLaws.StopReachesTheGeneration` | backend/agent/driver.py:1291-1380 | a granted stop stays visible to the generation it found as long as that lives, over every run |
| `DriverLaws.NewGenerationsAreNotStopped` | backend/agent/driver.py:1035-1063 | every transaction that starts a generation starts it live and without a stop request |
| `EffectLedger.EffectRecord.PrepareAgain` | backend/agent/effect_ledger.py:617-781 | a repeated prepare conflicts on another request and moves only a never-sent, unclaimed row to the new run |
| `EffectLedger.EffectRecord.ClaimDispatch` | backend/agent/effect_ledger.py:822-874 | dispatch is claimed only for the effect's own live run, on a never-sent prepared row without an unexpired claim |
| `EffectLedger.EffectRecord.Submit` | backend/agent/effect_ledger.py:877-915 | the send boundary is crossed once, by a live dispatch claim on a prepared row |
| `EffectLedger.EffectRecord.AbandonClaim` | backend/agent/effect_ledger.py:918-955 | a claim is given back only before the send boundary; its kind is not looked at |
| `EffectLedger.EffectRecord.AssertDispatchable` | backend/agent/effect_ledger.py:958-985 | sending is allowed exactly to the live dispatch claim of a submitting row whose run and resource still stand |
| `EffectLedger.EffectRecord.Renew` | backend/agent/effect_ledger.py:998-1027 | only an unexpired claim on an open row is renewed |
| `EffectLedger.EffectRecord.RecordDispatchProgress` | backend/agent/effect_ledger.py:1098-1121 | a live dispatch claim on a submitting row adds one entry under the phase its caller names, and moves nothing else |
| `EffectLedger.EffectRecord.Accept` | backend/agent/effect_ledger.py:1124-1189 | acceptance records handle and receipt once; the same receipt again is a success without change |
| `EffectLedger.EffectRecord.SettleRow` | backend/agent/effect_ledger.py:1205-1298 | settling ends an open row, drops its claim and never loses a known handle or receipt |
| `EffectLedger.EffectRecord.RecordOutcomeUnknown` | backend/agent/effect_ledger.py:1301-1358 | only a submitting or accepted row becomes unknown, and it drops its claim |
| `EffectLedger.EffectRecord.ClaimReconcile` | backend/agent/effect_ledger.py:1446-1527 | recovery claims only due, unclaimed, open rows whose origin run is dead and, if prepared, whose grace has passed |
| `EffectLedger.EffectRecord.DeferRow` | backend/agent/effect_ledger.py:1530-1615 | a deferral compares the claim alone, whatever the row's state, drops it, and logs the state it moves to unless the decision's evidence shows another or none |
| `EffectLedger.EffectRecord.AcknowledgeRow` | backend/agent/effect_ledger.py:1370-1424 | only a parked row of an acknowledgeable adapter becomes failed |
| `LedgerRuns.StepKeepsInv` | backend/agent/effect_ledger.py:561-614 | every transaction of every worker keeps the joint invariant of row, driver, in-flight recovery passes and history |
| `LedgerDispatch.OrdinarySend` | backend/agent/effect_ledger.py:822-985 | for a never-sent, unclaimed effect of a live run, claiming, submitting and the last guard are granted in turn: one attempt, one send |
| `LedgerDispatch.OrdinaryFinish` | backend/agent/effect_ledger.py:1124-1298 | the receipt and then the verdict are recorded as given, and what was learned before stays unless reported anew |
| `LedgerDispatch.UnknownFinish` | backend/agent/effect_ledger.py:1301-1358 | a worker that never learned the outcome leaves the row unknown and due, keeping what it did learn |
| `LedgerDispatch.AcceptanceIsIdempotent` | backend/agent/effect_ledger.py:1124-1189 | once accepted, the same receipt and handle succeed without change at any later time and any other are refused |
| `LedgerDispatch.RenewedClaimSurvives` | backend/agent/effect_ledger.py:998-1027 | over every interleaving shorter than a full lease a renewed dispatch claim is still live and renewable, unless its holder lets it go |
| `LedgerDispatch.UnknownIsDueAtOnce` | backend/agent/effect_ledger.py:1301-1358 | with its origin run dead, an outcome reported unknown may be recovered at exactly that moment and not before |
| `LedgerDispatch.DeferredIsDueAfterItsDelay` | backend/agent/effect_ledger.py:1530-1615 | a deferred effect may be recovered from exactly its delay on, held between one second and one hour |
| `LedgerDispatch.VanishedWorkerIsDue` | backend/agent/effect_ledger.py:1446-1527 | an effect whose worker vanished may be recovered from exactly the end of its claim on |
| `LedgerDispatch.NeverClaimedIsDueAfterItsGrace` | backend/agent/effect_ledger.py:1446-1527 | a prepared effect nobody claimed may be recovered from exactly the end of its grace on |
| `LedgerDispatch.NeverDue` | backend/agent/effect_ledger.py:1446-1527 | while its origin run lives, or once it has ended, an effect is never recovered |
| `LedgerRecovery.GrantedClaimStartsAPass` | backend/agent/effect_ledger.py:1446-1527 | a granted recovery claim starts a pass under the next count, with the live claim the row now holds |
| `LedgerRecovery.DecisionReachesTheRow` | backend/agent/effect_ledger.py:1655-1704 | over every run and interleaving, a closing write that takes effect leaves exactly the state, handle, receipt, projection, error and retry time the provider's decision calls for, or those of a raised query below or at the pass limit |
| `LedgerRecovery.SnapshotReachesTheRow` | backend/agent/effect_ledger.py:1618-1654 | when the snapshot rules the query out, a closing write that takes effect leaves exactly the state and reason it gives |
| `LedgerRecovery.SnapshotLetsItAsk` | backend/agent/effect_ledger.py:1618-1654 | a snapshot that rules nothing out sends the pass to ask, with the count it showed |
| `LedgerRecovery.PassIsCounted` | backend/agent/effect_ledger.py:1618-1704 | a pass with a live claim completes, and has queried exactly when its snapshot let it |
| `LedgerRecovery.UndisturbedPass` | backend/agent/effect_ledger.py:1618-1704 | a pass whose claim is still live takes effect, from its read to its write |
| `LedgerTheorems.PaidCallSentByOneClaim` | backend/agent/effect_ledger.py:877-915 | in every interleaving an effect is submitted at most once and every allowed send belongs to the claim generation that submitted it |
| `LedgerTheorems.NothingSentAfterRecovery` | backend/agent/effect_ledger.py:958-985 | no send is allowed once recovery has claimed an effect, over every run in which no recovery claim is abandoned while its session is open |
| `LedgerTheorems.ReconcileAbandonReopens` | backend/agent/effect_ledger.py:918-955 | every successful abandon of a recovery claim in an open session makes a send reachable, with sessions left alone and no further such abandon |
| `LedgerTheorems.ClosedSessionStaysSilent` | backend/agent/effect_ledger.py:654-669 | once the session is deleted, an abandoned recovery claim is never followed by a send, over any continuation |
| `LedgerTheorems.HandingBackIsUnsafeExactlyWhenOpen` | backend/agent/effect_ledger.py:918-955 | after abandoning a recovery claim a late send is reachable if and only if the session was open |
| `LedgerTheorems.LateSendExample` | backend/agent/effect_ledger.py:918-955 | a concrete run from an empty database in which an effect is sent after a recovery claim |
| `LedgerTheorems.TerminalStep` | backend/agent/effect_ledger.py:1561-1597 | no transaction, the unguarded deferral included, moves a terminal row except the owner's acknowledgement, and nothing returns to prepared |
| `LedgerTheorems.TerminalForever` | backend/agent/effect_ledger.py:1205-1298 | over any continuation succeeded and failed rows never change, a parked row only becomes failed, handles and receipts are never forgotten and evidence only grows |
| `LedgerTheorems.TerminalHoldsNoClaim` | backend/agent/effect_ledger.py:561-571 | no claim of any worker matches a terminal effect |
| `LedgerTheorems.RecoveryIsBounded` | backend/agent/effect_ledger.py:1618-1704 | a provider is queried at most 8 times per effect over all workers and crashes, and after 9 completed passes the effect is terminal |
| `LedgerTheorems.LogIsSequenced` | backend/agent/effect_ledger.py:516-546 | over every run the evidence log is numbered without gaps and its claim generations never go back |
| `LedgerEvidence.ProgressIsExplainedExactly` | backend/agent/effect_ledger.py:1098-1121 | a progress entry leaves the log explaining its row if and only if its phase says nothing new of a row submitted once |
| `LedgerEvidence.DeferralIsExplainedExactly` | backend/agent/effect_ledger.py:1530-1615 | a deferral leaves the log explaining its row if and only if it shows the state it moves to, or shows none and moves nowhere |
| `LedgerEvidence.EvidenceExplainsTheRow` | backend/agent/effect_ledger.py:516-546 | over every run whose progress entries use phases that move nothing and whose decision evidence shows no other state, the log alone determines state and both attempt counters |
| `LedgerMisreports.ProgressExample` | backend/agent/effect_ledger.py:1098-1121 | from one reachable state an acceptance and a progress entry lead to rows with equal logs and different states |
| `LedgerMisreports.DeferralExample` | backend/agent/effect_ledger.py:1602-1612 | a run from an empty database that leaves a row of unknown outcome whose log says accepted |
| `ResourceGate.ResourceGate.RunCommand` | container/resource_gate.py:173-209 | bind and close replay a recorded id, refuse another payload or fence, and bind only automation's epoch 1 over a matching history |
| `ResourceGate.ResourceGate.AdvanceClosed` | container/resource_gate.py:135-171 | the epoch advances by one to the other owner kind, only while closed and with every operation terminal |
| `ResourceGate.ResourceGate.AdmitRequest` | container/resource_gate.py:219-247 | an operation is journaled once, with its fence, only while its owner's gate is open |
| `ResourceGate.ResourceGate.PassCheckpoint` | container/resource_gate.py:249-257 | a checkpoint passes only for an in-flight operation of the open owner |
| `ResourceGate.ResourceGate.FinishRequest` | container/resource_gate.py:259-263 | an in-flight operation ends canceled, completed when quiescent, else unknown; a finished one is left alone |
| `GateRuns.BoundForever` | container/resource_gate.py:219-247 | once bound, every fenced operation ever journaled carries the initial fence, over every continuation |
| `GateRuns.ReachableOwnership` | container/resource_gate.py:173-209 | every reachable bound gate was first bound by automation's epoch 1 |
| `GateRuns.OpenMeansFirstAutomationEpoch` | container/resource_gate.py:144-146 | an open gate is at epoch 1 under automation, and automation owns exactly the odd epochs |
| `GateRuns.ClosedForever` | container/resource_gate.py:117-120 | after a close nothing is admitted and no checkpoint passes again, whatever is presented and however often the epoch advances |
| `GateLaws.GrantedCloseStopsEveryone` | container/resource_gate.py:173-209 | from any granted close on, new or replayed, over every continuation nothing is admitted and no checkpoint is passed |
| `GateLaws.BoundGateServesItsOwner` | container/resource_gate.py:173-257 | after a granted bind, for as long as nobody closes, every fresh step of the owner is admitted and passes its checkpoint, and everybody else is held |
| `GateLaws.UnboundGateAdmits` | container/resource_gate.py:219-247 | a gate nobody has bound admits every request whose step is not journaled yet |
| `GateLaws.DrainedGateHandsOver` | container/resource_gate.py:135-209 | on a drained gate the owner's close and the advance are granted in turn and leave it closed under the next fence, one epoch on |
| `GateRuns.EpochStep` | container/resource_gate.py:135-171 | the epoch moves only by one, by an advance, while closed and drained |
| `GateRuns.InFlightPinsEpoch` | container/resource_gate.py:249-263 | an operation nobody confirms keeps the epoch where it is |
| `GateRuns.UnknownPinsEpochForever` | container/resource_gate.py:259-263 | an operation of unknown outcome pins the epoch for ever |
| `GateRuns.CommandsReplay` | container/resource_gate.py:152-171 | a recorded command id returns the same receipt for ever without effect, and any other payload under it is refused without effect |
| `GateRuns.AdmittedAtMostOnce` | container/resource_gate.py:235-247 | an operation id is admitted at most once over the whole journal |
| `GateRequests.EpochAdvanceFindsNobodyInside` | container/resource_gate.py:303-368 | the journal says of each request what really happened to it, and an advance finds no request body running |
| `GateBrackets.BracketEnds` | container/resource_gate.py:249-263 | an admitted request that starts is running and ends completed when its body says it is quiescent, unknown when not, and canceled when it never starts |
| `GateBrackets.CloseHoldsTheStart` | container/resource_gate.py:249-257 | a close between a request's admission and its start keeps its body from running |
| `Inbox.PickIsFifo` | backend/agent/inbox.py:673-703 | a limited query selects a matching row exactly when fewer than the limit precede it in acceptance order |
| `Inbox.AllIsExact` | backend/agent/inbox.py:1112-1127 | an unlimited row query returns exactly the matching rows in order |
| `Inbox.StampPointwise` | backend/agent/inbox.py:835-909 | a claim gives the k-th selected row the k-th new Message id and touches no other row |
| `InboxTables.InboxTable.AcceptItem` | backend/agent/inbox.py:408-576 | acceptance is idempotent by client id, conflicts on another request except a legacy human retry, and refuses missing attachments |
| `InboxTables.InboxTable.ClaimBoundaryOnce` | backend/agent/inbox.py:713-983 | one claim takes all selected rows under one turn and binds the driver's trigger, or nothing at all |
| `InboxTables.InboxTable.ClaimBoundary` | backend/agent/inbox.py:986-1020 | the cancel-and-retry loop ends, cancels only broken waiting rows of its session, and on a queue with no card pending and no report waiting or claimed claims exactly the first 32 available next-step rows and the first available next-turn row, canceling exactly the broken rows before them |
| `InboxTables.InboxTable.SettleItems` | backend/agent/inbox.py:1079-1183 | exactly the rows claimed under the live fence are settled, with the result Message |
| `InboxTables.InboxTable.CancelItems` | backend/agent/inbox.py:1186-1257 | only accepted rows are canceled |
| `InboxTables.InboxTable.CloseRows` | backend/agent/inbox.py:1669-1723 | never-run rows are settled together, with one closing Message when the turn is closed |
| `InboxTables.InboxTable.SettleUndelivered` | backend/agent/inbox.py:1744-1801 | only named rows of the live generation are closed as undelivered |
| `InboxTables.InboxTable.SettleRefusedClaims` | backend/agent/inbox.py:1804-1837 | every row of the live generation is closed as not run |
| `InboxTables.InboxTable.CountDeliveryFailure` | backend/agent/inbox.py:1476-1541 | a failed delivery counts on its own claim only, and is terminal when not retryable or after 3 attempts |
| `InboxTables.InboxTable.RebindRecoveredClaims` | backend/agent/inbox.py:2110-2178 | exactly the record's claimed rows move to the fenced lease |
| `InboxTables.InboxTable.SettleUnstartedClaims` | backend/agent/inbox.py:2181-2236 | a vanished generation's rows are closed only with an idle driver, all claims expired and no reply |
| `InboxClaims.WindowIsExact` | backend/agent/inbox.py:1002-1020 | once the selected window holds only available rows it is the first available rows of the original queue, and every broken row before them is canceled |
| `InboxClaims.Round` | backend/agent/inbox.py:763-784 | each retry cancels exactly the broken selected rows and leaves fewer rows waiting |
| `InboxRuns.StepKeepsInv` | backend/agent/inbox.py:898-909 | every transaction moves every row forward in its life and keeps Messages and client ids unique |
| `InboxRuns.RowsOnlyMoveForward` | backend/agent/inbox.py:1114-1142 | over every run a row goes accepted, claimed, settled or accepted, canceled; its input, and its Message and turn once claimed, never change |
| `InboxRuns.ReachableInbox` | backend/agent/inbox.py:515-555 | in every reachable state a row has a Message exactly from its claim on, no two rows share one, and a client id names at most one row per user and session |
| `InboxLaws.ClientIdStandsForOneRequest` | backend/agent/inbox.py:463-491 | over every run after an acceptance, its client id answers the first receipt to the same request and to its legacy human repetition, and a conflict to any other, changing nothing |
| `InboxLaws.NewRequestIsAccepted` | backend/agent/inbox.py:408-576 | an owner's valid request under a new client id with all its attachments is accepted as a new waiting row |
| `InboxLaws.WaitingRows` | backend/agent/inbox.py:673-703 | followups wait for a turn of their own, steers and injections for the next step |
| `InboxLaws.BoundaryIsExact` | backend/agent/inbox.py:645-710 | which rows a boundary takes, for every queue: none while a report is answered, the oldest human row under a pending card, else the first 32 steps and the oldest turn unless it is a report |
| `InboxLaws.BoundaryIsOrdered` | backend/agent/inbox.py:673-710 | a boundary lists steps before the turn and steps in queue order |
| `InboxLaws.MainTurnIsExact` | backend/agent/inbox.py:750-752 | an assistant session's claim takes exactly the row its scheduler picked, if that row still waits there |
| `InboxLaws.ClaimIsExact` | backend/agent/inbox.py:713-983 | a claim gives the k-th taken row the k-th new Message, the lease's run and generation, one turn and five minutes, names the turn in the trigger and changes nothing else |
| `InboxLaws.ClaimsTheOpenTurn` | backend/agent/inbox.py:786-820 | the turn is that of the oldest row the lease holds, else the trigger's, else that of the last new Message |
| `InboxLaws.HolderMaySettle` | backend/agent/inbox.py:1079-1183 | in every reachable state the holder of the fence is granted the settlement, refusal or giving up of everything it holds |
| `InboxLaws.VanishedClaimsAreClosed` | backend/agent/inbox.py:2181-2236 | the expired, unanswered claims of a vanished generation are closed once no driver runs |
| `InboxLaws.GivenUpAtTheThirdFailure` | backend/agent/inbox.py:1476-1541 | a claimed input is given up at its third retryable failure, not sooner, and at once when it cannot be retried |
| `InboxRuns.ClaimedRowAuthority` | backend/agent/inbox.py:1095-1127 | a claimed row is touched only behind the live fence of its own generation, by a fenced rebinding, or when expired and unanswered with no driver running |
| `InboxGenerations.RebindingTakesALiveClaimExactly` | backend/agent/inbox.py:2110-2151 | in every state reached by paired rebindings, a rebinding of any record to any lease takes a claim from a generation that may still write if and only if the record names another session whose run is live |
| `InboxGenerations.RebindingTakesOnlyDeadClaims` | backend/agent/inbox.py:2127-2151 | a takeover that rebinds to its own session takes claims only from generations that can never write again, or from itself |
| `InboxGenerations.GoesBackExactly` | backend/agent/inbox.py:2144-2151 | in one transaction a row's claim generation goes down exactly when it is rebound from a larger generation to a smaller one |
| `InboxGenerations.ClaimGenerationsNeverGoBack` | backend/agent/inbox.py:2144-2151 | the generations a row is claimed under never decrease over any run whose rebindings go to generations no smaller than the record's |
| `InboxGenerations.PairedClaimsNeverGoBack` | backend/agent/inbox.py:2110-2151 | nor over any run whose rebindings stay on the record's own session |
| `InboxExample.UnpairedRebindingExample` | backend/agent/inbox.py:2110-2151 | a reachable state in which rebinding across sessions takes a live generation's claim and moves its generation back |
| `InboxGenerations.MessageComesFromAClaim` | backend/agent/inbox.py:898-900 | a row gets its Message only by a fenced claim of its own session |
| `InboxTriggers.TriggerStaysNamedExactly` | backend/agent/driver.py:394-425 | one transaction whose rebinding, if any, stays on its record's session keeps every trigger naming the turn of all its generation holds if and only if a bound trigger is the turn of what its lease holds and a rebinding moves rows of the turn its lease's trigger names |
| `InboxTriggers.TakeoverThenRebindingNames` | backend/agent/inbox.py:2110-2151 | a takeover followed at once by the rebinding of its record meets that condition by itself |
| `InboxTriggers.ClaimJoinsTheNamedTurn` | backend/agent/inbox.py:786-820 | over every run of such transactions that meet it the trigger names the one turn a generation holds, and a further claim joins that turn and leaves the trigger on it |
| `InboxTriggers.MisnamedTriggerExample` | backend/agent/driver.py:721-747 | a run after which a bound trigger no longer names the turn its generation holds |
| `InboxTurns.RebindKeepsOneTurnExactly` | backend/agent/inbox.py:2110-2151 | a granted rebinding leaves every generation with one turn exactly when what it moves agrees with what the target already holds |
| `InboxMixed.LateRebindingExample` | backend/agent/inbox.py:2110-2151 | a run in which a rebinding after the first claim of the new generation leaves it with two turns |
| `InboxTurns.EveryGenerationHasOneTurn` | backend/agent/inbox.py:786-820 | over every run that rebinds before the new generation claims, all rows a generation holds share one turn, through boundaries and takeovers |
| `InboxHandover.RunUndisturbed` | backend/agent/inbox.py:1095-1127 | while a lease passes the fence, other workers neither change, add nor remove a claim of its session |
| `InboxHandover.OrphanPassSettlesExactly` | backend/agent/inbox.py:2321-2365 | however other workers interleave, a maintenance pass whose lease still passes the fence settles exactly the vanished generation's claims, with the found reply and their Messages and turns unchanged |
| `NativePlan.PlanIsBuiltExactly` | backend/agent/native_tool_search.py:353-410 | a plan is built if and only if every catalogue id is on exactly one side, no unknown id is on any, some tool is deferred and no extra tool takes a catalogue tool's name |
| `NativePlan.PlanPartitions` | backend/agent/native_tool_search.py:353-448 | every wire name of a built plan is direct or deferred and never both, for catalogues as the builder admits them (backend/agent/tool_exposure.py:266-274) |
| `NativePlan.PlanPlacesEveryEntry` | backend/agent/native_tool_search.py:382-433 | every entry's wire name resolves to its own canonical id, lies on the side its id was put on and, when deferred, is bound to its own definition and marked safe exactly when the entry is |
| `NativePlan.PlanBindsDeferred` | backend/agent/native_tool_search.py:422-433 | every deferred name is bound to the exact definition on the wire, and only deferred names are marked safe |
| `NativeCalls.EveryItemIsHandledOnce` | backend/agent/native_tool_search.py:574-731 | in every accepted stream the search calls, results and tool calls passed on are exactly the finished items of those kinds, each id once, in order, summary included |
| `NativeCalls.CallsCarryTheirItems` | backend/agent/native_tool_search.py:710-731 | every call names the tool, call id and arguments of its own item and waits exactly when its tool is deferred and not marked safe |
| `NativeCalls.ExecutableExactlyWhenDirectOrSafe` | backend/agent/native_tool_search.py:430-434 | over every accepted stream under a built plan, a call of a catalogue tool is executable at once if and only if it is direct or its own entry is safe, and goes to that entry's tool |
| `NativeCalls.SyntheticToolsAreDirect` | backend/agent/native_tool_search.py:390-431 | over every accepted stream the extra direct tools are executable at once and go to their own canonical tool |
| `NativeAcceptance.AcceptedExactly` | backend/agent/native_tool_search.py:589-731 | a stream is accepted if and only if its events are well shaped, nothing follows its completion, and every finished item may follow the items before it, by a condition on the items and the budget alone |
| `NativeAcceptance.FinalisedExactly` | backend/agent/native_tool_search.py:629-638 | an accepted stream may be finalised if and only if its last event completes it and no search call is open, and it has then spent exactly its items' calls, characters and tools |
| `NativeNormalizer.Normalizer.RevealDefinition` | backend/agent/native_tool_search.py:733-771 | a definition is revealed once, only if it is the plan's own, within the reveal budget |
| `NativeNormalizer.Normalizer.TakeItem` | backend/agent/native_tool_search.py:640-731 | an item is taken once per id and drives the search stages, budgets and events; a failure keeps what was spent |
| `NativeNormalizer.Normalizer.TakeSse` | backend/agent/native_tool_search.py:589-627 | only finished items are taken, id-less repeats in the terminal summary are struck off by count, and nothing follows a completed response |
| `NativeNormalizer.Normalizer.Finish` | backend/agent/native_tool_search.py:629-638 | a stream finishes only when completed with no search unanswered |
| `NativeNormalizer.BuildReplay` | backend/agent/native_tool_search.py:774-828 | the validation loop computes the replay specification for every list of records |
| `NativeReplay.ReplayAcceptsHistories` | backend/agent/native_tool_search.py:785-822 | records replay exactly when their distinct sequence numbers order them into calls answered at once by matching outputs and references after outputs, with no call left open |
| `NativeReplay.KeptItemsReplayExactly` | backend/agent/native_tool_search.py:774-828 | for every stream the normaliser accepts, finished or cut short, the items saved so far replay in any storage order if and only if no search is unanswered, and then to themselves in emission order |
| `NativeReplay.FinishedStreamReplays` | backend/agent/native_tool_search.py:574-710 | for every stream the normaliser accepts and finalises, the kept items in any storage order replay to the same items in emission order |
| `NativeBudget.StreamSpendsLawfully` | backend/agent/native_tool_search.py:656-692 | search, reveal and character counters that start within their limits stay within them over every stream, refused ones included |
| `NativeStreams.EventsAreNumbered` | backend/agent/native_tool_search.py:574-587 | the events of an accepted stream are numbered 0, 1, 2, ... in emission order |
| `NativeStreams.DeferredCallFollowsItsReveal` | backend/agent/native_tool_search.py:710-731 | in every accepted stream a deferred tool is called only after a reveal listing exactly the plan's definition |
| `NativeStreams.CompletedSummaryIsFree` | backend/agent/native_tool_search.py:609-626 | a completed response repeating finished items in any order emits nothing, spends nothing and moves no search state |
| `NativeStreams.CompletedByTheLastEvent` | backend/agent/native_tool_search.py:609-627 | an accepted stream is completed if and only if its last event is a completed response with an output list |
| `NativeStreams.NothingFollowsCompletion` | backend/agent/native_tool_search.py:593-595 | in an accepted stream no event follows a completed response with an output list |
| `NativeStreams.EmptyCompletionExample` | backend/agent/native_tool_search.py:611-614 | a completed response without an output list is accepted, completes nothing, and another may follow |
| `CompactionChunks.LargestFitting` | backend/agent/compaction.py:327-336 | the binary search returns a fitting end and, for a monotone meter, the largest one |
| `CompactionChunks.ChunkRequests` | backend/agent/compaction.py:305-340 | fragments concatenate to the whole source and fit; for a monotone meter they are the fewest possible, and chunking fails exactly when some character cannot fit |
| `CompactionChunks.GreedyIsLeast` | backend/agent/compaction.py:324-339 | no fitting split has fewer fragments than the greedy one |
| `CompactionSelect.PreserveRecentBudget` | backend/agent/compaction_select.py:47-52 | the budget is a quarter of the window between 8000 and 60000, or the configured value floored at zero |
| `CompactionSelect.OpeningsComplete` | backend/agent/compaction_select.py:68-81 | a turn opens exactly at each real user message |
| `CompactionSelect.Turns` | backend/agent/compaction_select.py:68-81 | turns run from each opening to the next, the last to the end of the history |
| `CompactionSelect.SplitTurn` | backend/agent/compaction_select.py:118-129 | the split is the earliest one strictly inside the turn whose rest fits |
| `CompactionSelect.Select` | backend/agent/compaction_select.py:132-168 | head and tail make up the history; for a strictly positive additive meter the tail is the longest eligible one that fits, and is dropped exactly when none fits or it is everything |
| `RunTiming.RunTimer.EnterProviderWait` | backend/agent/latency.py:116-143 | entering starts the clock of a counter only from depth zero |
| `RunTiming.RunTimer.ExitProviderWait` | backend/agent/latency.py:116-143 | leaving adds elapsed time only when the last nested wait ends |
| `RunTiming.RunTimer.EnterNetworkWait` | backend/agent/latency.py:133-160 | as for provider waits, on the network counter and the shared one |
| `RunTiming.RunTimer.ExitNetworkWait` | backend/agent/latency.py:133-160 | as for provider waits, on the network counter and the shared one |
| `RunTiming.RunTimer.EnterPhase` | backend/agent/latency.py:75-98 | switching charges the open phase with what elapsed since it began and opens the next |
| `RunTimingLaws.CountersMeasureUnions` | backend/agent/latency.py:116-160 | under any nesting and overlap each counter equals the length of the union of its intervals and grows no faster than the clock |
| `WaitUnion.ExternalIsTheUnionOfAllWaits` | backend/agent/latency.py:116-160 | over every run the union of all provider and network waits is the shared counter plus exactly the missed ticks, and the two are equal if and only if the shared counter runs whenever the clock advances with a wait in progress |
| `WaitUnion.MissedTickExample` | backend/agent/latency.py:116-143 | a run in which the shared counter reads 0 while the union has one tick |
| `RunTimingLaws.PhasesPartitionTheRun` | backend/agent/latency.py:75-113 | at every moment the phases' totals, waits and internal times add up exactly to the run's own |
| `PhaseCosts.PhasesAreChargedTheirOwn` | backend/agent/latency.py:75-113 | at every moment of every run each phase is charged exactly the time and waits that passed while it was the open one |

## Left out

- InboxTables.InboxTable.ClaimBoundary: the closed form is stated with no card pending and no task report waiting or claimed; other queues get termination, cancel-only-broken and the selection of the last round.
- EffectLedger.EffectRecord.PrepareAgain: the existing-row branch only; the fence, resource and session guards before it are in `EffectLedger.PrepareGuard` and `LedgerRuns.PrepareStep`, and the project an effect belongs to is not modelled.
- EffectLedger.EffectRecord.AcknowledgeRow: one row at a time; the batch limit and its order are not modelled.
- RunTiming.RunTimer.EnterPhase: times are integer ticks; call counts, maxima, millisecond rounding, wait forwarding, spans and SQL timing are not modelled.
- NativePlan.PlanPartitions: wire sizes, token estimates and the order of definitions on the wire are not modelled.
- SQL, row locks, advisory locks and dialect branches: a transaction is one atomic step.
- Monitors, heartbeats, context variables, local activity registries, the bus and session status: the rows are the authority.
- Assistant scheduling, task holds, cards, question runtime and the physical-resource controller appear as boolean answers or a chosen row; expiring task steers is covered by cancellation.
- Hashes and digests are the payload they hash; tokens, UUIDs and clock readings are arguments.
- String validation, error texts, and what evidence entries hold beyond phase, attempt, state and their loss when too large; origin binding and model selection of claimed rows.
- Delivering attachments to a sandbox, wake scheduling, and waiting for an item to finish.
- The gate's identity syntax, header parsing, timestamps and status listing.
- Provider transport, the capability cache and the native/portable gate decision.
- `process_compaction`, pruning and the token estimator itself; meters are arbitrary functions.
- Effect projections, project scope and the adapters' own reconcile queries.
