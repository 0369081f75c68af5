# Verified model of the macOS runner broker

The broker keeps a fixed set of warm virtual machines and runs ephemeral GitHub Actions jobs in
their slots. Inside each VM a guest agent starts the jobs and keeps one event log per execution; on
the host a pool dispatches jobs, follows the logs, recycles VMs and adopts them again after a
restart. The images the VMs are cloned from are built, verified and promoted by the golden builder.
This project models those parts in Dafny and proves what they promise.

| files | what they hold |
|---|---|
| `PoolSections`, `PoolOutcomes`, `RunnerPool` | the pool's critical sections as functions on its state, what each does to it field by field, and the pool object that carries them out on its fields |
| `PoolRuns`, `PoolWorkers`, `PoolEffects`, `PoolSafety`, `PoolReaping`, `PoolPass`, `PoolMarked`, `PoolCeiling`, `PoolIdle`, `PoolReady`, `PoolShutdown`, `PoolStalls` | the running pool as a machine that interleaves workers, slots, reap passes and callers; its invariants and results |
| `EventLog`, `RegistrySections`, `GuestRegistry` | the event log with its byte cap, the registry's sections, and the two as objects |
| `GuestRuns`, `GuestLogs`, `GuestAccounts`, `GuestSafety`, `GuestExits`, `GuestOutcomes`, `GuestHistory`, `GuestReports` | the running guest (pipe readers, heartbeats, supervisor, retention, RunJob calls, drain); its invariants and results |
| `HostDrain`, `Delivery`, `DeliverySafety`, `DeliveryScripts` | the host's drain loops; status streams and drains composed with the guest; the drains of that system as runs of those loops |
| `DeliveryRetention`, `Stranding`, `DeliveryLoss`, `DeliveryHandover` | what the end of retention does to a drain that reconnects, with the runs that lose a terminal; a drain handed over to the next host |
| `AdoptionSections`, `Adoption`, `AdoptedCursors` | re-adoption of running VMs after a restart, and the cursors it resumes at |
| `GoldenSections`, `GoldenBuilder`, `GoldenSafety`, `Fingerprint` | the golden build over a store of images whose operations fail at will; the fingerprint's text |
| `TailBuffer`, `Names`, `Sorting`, `Wrappers` | the bounded output tail, minted ids, sorting, shared datatypes |

`dafny verify dfyconfig.toml` checks everything.

## How the model is read

A section of code that runs under a mutex is one step. It is a function from the old state to the
new one, the object's method is proved to compute that function, and a machine (`Enabled`, `Apply`,
`Init`, `IsRun`) lets the steps of all goroutines follow one another in any order. A result about
runs is stated for every run and every position in it. A goroutine asleep on a condition variable or
on a log's notify channel remembers how many broadcasts or events there had been; it sleeps exactly
while that number has not changed. Histories (accepted and dispatched jobs, VMs torn down, pipes read,
events received) are part of the machine's state and no step looks at them.

Assumptions, each visible in the model: a warmed VM has a name that was never used before; the clock
never runs back; a status stream delivers an in-order prefix of what the guest sent; a lookup by pid
may reach any execution, so nothing rests on pids being unique; a failing image operation changes no
image; a booted clone shows the contents of its own disk.

The guest forgets a stopped execution after its retention time and would then accept the same id again
as a new execution, so a drain that outlives the retention could meet another log. What it processes is
still numbered without gap or repeat (`ProcessedExactlyOnce`), and its cursor is still below the terminal
of the log it came from (`TerminalStaysAhead`). While that execution is retained no stream ends on the
drain without the terminal (`RetainedIsNeverStranded`). A drain about to open can still be brought to a
stream that is over and had no terminal if and only if its cursor is 3 or more, the execution it came from
is forgotten, and the guest is not draining or has a log under the id that can end by that cursor
(`StrandsIffExposed`); `ResumedDrainMissesTheTerminal` is a run in which that happens.

Where documentation and code differ, the model follows the code:

- The repository's README and `docs/runnerpool/overview.md` say that a restart tears down running VMs.
  In the code a stopping worker releases its VM without teardown and the next process adopts it
  (`PoolSafety.DetachIsSafe`, `PoolShutdown.StopSparesAttachedVms`, `Adoption.StartBeginsARun`).
- The comment on `writeFingerprintField` says that no combination of field values can collide. For fields
  made of a given set of characters that holds if and only if the set has no NUL or cannot spell any tag
  that follows another field (`Fingerprint.IdentifiesIffDelimits`); `Fingerprint.NulsCollide` is a
  collision.
- The comment on `Build` says that a failed build leaves the live golden intact. With scratch names apart
  from the golden's (`GoldenSafety.SurvivesIffSeparate`), as every name the code derives itself is, a
  failed build keeps it if and only if promotion was not reached, or its delete failed, or there was no
  golden (`GoldenSafety.FailedBuildKeepsGoldenIff`); `GoldenSafety.PromotionCanLoseTheGolden` is a loss.
- The comment on the event streams suggests that a pipe's chunks carry that pipe's bytes. A failed read
  of either pipe adds a message to the stderr stream, so stderr does so iff no read failed.
- The comment on `reapBusyWorkers` calls MaxBind an absolute ceiling: a slot past it is recycled whatever
  it runs, so that a hung runner cannot hold it. The claim of a reap refuses a VM that is marked already, so
  a pass cancels a slot's job if and only if the VM is unmarked and the slot is its first overdue one
  (`PoolPass.CancelledIffFirstOverdue`). A second overdue slot keeps its job (`PoolCeiling.MaxBindIsNoCeiling`,
  `PoolPass.SecondOverdueSlotKeepsItsJob`), and no later pass reaches it while the VM stays
  (`PoolMarked.MarkedVmIsNotReapedAgain`).

## Model

| member | source | states |
|---|---|---|
| `RunnerPool.Pool.constructor` | internal/runnerpool/pool.go:169-192 | a new pool: defaulted options, that many workers without a VM, each with empty slots, and an empty queue |
| `RunnerPool.Pool.Enqueue` | internal/runnerpool/pool.go:362-376 | appends the job and wakes everybody, or refuses it after a stop and leaves the pool alone |
| `RunnerPool.Pool.Reconfigure` | internal/runnerpool/pool.go:195-258 | new timing, slot and retry options take effect, a run token only when one is given, runner count and image never |
| `RunnerPool.Pool.SnapshotLocked` | internal/runnerpool/pool.go:390-429 | counts idle slots of live VMs and all busy slots; Ready iff idle exceeds the queue |
| `RunnerPool.Pool.ResetWorkerSlotsTo` | internal/runnerpool/pool.go:900-913 | a slot vector of the same length is emptied and the job contexts in it cancelled; one of another length is replaced, and its contexts stay as they are |
| `RunnerPool.Pool.ActivateWorker` | internal/runnerpool/pool.go:783-796 | installs the warmed VM with the slot count it was warmed for |
| `RunnerPool.Pool.PollWorker` | internal/runnerpool/pool.go:704-726 | one turn of the worker's wait: stop, VM gone, detach an idle marked VM, or sleep |
| `RunnerPool.Pool.PollSlot` | internal/runnerpool/pool.go:798-847 | one turn of a slot's wait: stop, bind the head of the queue, or sleep |
| `RunnerPool.Pool.FinishSlotJob` | internal/runnerpool/pool.go:857-883 | frees the slot if its VM is still there and restarts the idle clock only when the VM went idle unmarked |
| `RunnerPool.Pool.ClaimResumeSlot` | internal/runnerpool/worker.go:141-164 | hands out an adopted binding for resumption at most once and never after a stop |
| `RunnerPool.Pool.RecycleWorkerFreeingSlot` | internal/runnerpool/worker.go:172-187 | frees the slot and marks the VM in one section |
| `RunnerPool.Pool.CancelRun` | internal/runnerpool/pool.go:594-615 | finds the first busy slot of the job in worker and slot order and cancels exactly that one |
| `RunnerPool.Pool.ClaimSlotReapWarning` | internal/runnerpool/reap.go:85-109 | claims a candidate once, only while its binding is unchanged and its VM unmarked |
| `RunnerPool.Pool.RequestBusyRecycle` | internal/runnerpool/pool.go:560-590 | acts only if the binding still is the candidate's |
| `RunnerPool.Pool.CollectCandidates` | internal/runnerpool/reap.go:111-137 | lists the bound slots of attached VMs |
| `RunnerPool.Pool.ReapBusyWorkers` | internal/runnerpool/reap.go:42-75 | an uninterrupted pass is the fold of claim and request over the collected slots that are past MaxBind, or past PickupTimeout and not in their VM's one probe |
| `RunnerPool.Pool.InstallAdoptedWorkersLocked` | internal/runnerpool/adopt.go:22-69 | gives the adopted VMs to the first workers, slots bound as the bindings say |
| `PoolOutcomes.CancelRunStopsTheJob` | internal/runnerpool/pool.go:594-615 | the VM of the first slot busy with the job, in worker and slot order, is marked and everybody woken; its job context is cancelled and the slot stays busy without it, or, adopted without one, the slot is freed; nothing else changes |
| `PoolOutcomes.CancelRunOfNoJob` | internal/runnerpool/pool.go:594-615 | cancelling a job that no slot is busy with changes nothing |
| `PoolOutcomes.ReapRequestStopsTheJob` | internal/runnerpool/pool.go:560-590 | the same for a reap request while its binding is still there, with the recycle cause; otherwise nothing changes |
| `PoolOutcomes.ReapClaimMarksTheBinding` | internal/runnerpool/reap.go:85-109 | a claim is granted iff the binding is unchanged, unclaimed and its VM unmarked, and leaves the mark alone |
| `PoolOutcomes.ClaimTakesTheHead` | internal/runnerpool/pool.go:798-838 | a slot takes a job iff the pool runs, its VM is attached and unmarked, it is free and the queue is not empty; the queue's head is then bound to it with a context of its own |
| `PoolOutcomes.FinishFreesTheSlot` | internal/runnerpool/pool.go:857-883 | the slot is freed and keeps the error, and the idle clock starts iff no other slot is busy and the VM is unmarked; nothing happens once the VM left |
| `PoolOutcomes.RecycleFreesAndMarks` | internal/runnerpool/worker.go:172-187 | the slot is freed and its VM marked, if that is still there |
| `PoolOutcomes.ResumeIsClaimedOnce` | internal/runnerpool/worker.go:141-164 | an adopted binding is handed out iff it has an execution and no context yet, and then not again |
| `PoolOutcomes.EnqueueAppends` | internal/runnerpool/pool.go:362-376 | a job goes to the queue's end and everybody is woken, or after a stop nothing changes |
| `PoolOutcomes.ShutdownStops` | internal/runnerpool/pool.go:620-646 | after a stop enqueueing is refused, every wait is over, nothing is resumed and the pool reports neither ready nor healthy |
| `PoolOutcomes.ReconfigureTakesEffect` | internal/runnerpool/pool.go:195-283 | each option's new value, with its default where none is asked for; runner count, image and all workers stay |
| `PoolOutcomes.NewOptionsAreComplete` | internal/runnerpool/pool.go:260-283 | the defaults: 3 runners, 1 job per VM, 7 hours, 5 minutes, 5 seconds and the token "pool" |
| `PoolOutcomes.WorkersAreRenewed` | internal/runnerpool/pool.go:704-796 | warming, a failed warm-up, a fresh VM and a detach set their worker's fields, give it free slots, cancel the contexts of slots reset in place and touch no other worker |
| `PoolOutcomes.ClearLetsGo` | internal/runnerpool/pool.go:885-898 | a worker that ends lets go of its VM and slots, and cancels no context |
| `PoolOutcomes.OnlyIdleVmsAreRequested` | internal/runnerpool/pool.go:548-558 | a recycle is requested of the VM iff it is there and idle, and then recorded with its reason |
| `PoolOutcomes.WorkerWaitsForARecycle` | internal/runnerpool/pool.go:704-726 | the wait ends iff the pool stops, the VM is gone, or it is marked with no slot busy |
| `PoolOutcomes.SnapshotCounts` | internal/runnerpool/pool.go:390-429 | idle and busy are the numbers of free slots on serving VMs and of busy slots; Ready iff more slots are free than jobs queued, healthy iff some VM can serve |
| `PoolSections.BusyCandidatesExact` | internal/runnerpool/reap.go:111-137 | the snapshot holds every bound slot of every attached VM and nothing else |
| `PoolPass.PassIsExact` | internal/runnerpool/reap.go:42-109 | the pool after an uninterrupted pass, worker by worker: the first overdue slot of each unmarked VM is reaped and its VM marked, nothing else changes |
| `PoolPass.CancelledIffFirstOverdue` | internal/runnerpool/reap.go:35-109 | an uninterrupted pass cancels a bound slot's job iff its VM is unmarked and it is the VM's first slot bound for MaxBind, or for PickupTimeout with that pass's probe not listing it |
| `PoolPass.MarkedIffOverdue` | internal/runnerpool/reap.go:42-75 | after the pass a VM is marked iff it was before or has a slot with such a reason |
| `PoolPass.SecondOverdueSlotKeepsItsJob` | internal/runnerpool/reap.go:35-109 | of two overdue slots on one VM the later keeps its job through this pass and the next, whatever that one probes |
| `PoolCeiling.MaxBindIsNoCeiling` | internal/runnerpool/reap.go:35-41 | a run that claims two jobs on one VM and lets both pass MaxBind; after two passes the second still holds its slot, not cancelled |
| `PoolMarked.MarkedVmIsNotReapedAgain` | internal/runnerpool/reap.go:85-109 | in every run, while a marked VM stays and no pass is mid-request on it, none of its bindings is newly cancelled for a recycle |
| `PoolWorkers.WorkersKept` | internal/runnerpool/pool.go:648-726 | every act of every goroutine keeps the worker and slot invariants that tie program points to pool state |
| `PoolSafety.JobsConserved` | internal/runnerpool/pool.go:362-376 | in every run the dispatched jobs followed by the queue are the accepted jobs in order: global FIFO, none lost or served twice |
| `PoolSafety.TeardownIsSafe` | internal/runnerpool/pool.go:648-689 | a VM about to be torn down was never torn down before, is on no worker, and all its slot goroutines have returned |
| `PoolSafety.OwnershipIsExclusive` | internal/runnerpool/pool.go:648-726 | no two workers ever own one VM and no VM is torn down twice |
| `PoolSafety.RunningJobHoldsItsSlot` | internal/runnerpool/pool.go:798-838 | a job inside RunJob has its VM attached and its slot busy under its own ids |
| `PoolSafety.DetachIsSafe` | internal/runnerpool/pool.go:704-726 | a VM leaves its worker only while none of its slots holds a freshly dispatched job |
| `PoolSafety.NoLostWakeup` | internal/runnerpool/pool.go:704-838 | whoever sleeps on the condition variable has a false wake condition |
| `PoolSafety.RecycleIsSticky` | internal/runnerpool/pool.go:548-590 | a recycle mark stays while the VM stays on its worker |
| `PoolSafety.MarkedVmIsDone` | internal/runnerpool/pool.go:548-838 | once marked, a VM takes no job in any later act while it is on its worker |
| `PoolSafety.ShutdownIsFinal` | internal/runnerpool/pool.go:620-646 | after shutdown nothing is accepted, dispatched or detached for teardown |
| `PoolShutdown.StopSparesAttachedVms` | internal/runnerpool/pool.go:620-726 | in every run, what is torn down after a stop had been detached for teardown before it; no VM attached at the stop is ever torn down |
| `PoolSafety.SlotCountIsFixed` | internal/runnerpool/pool.go:195-258 | a VM keeps its slot count across every reconfiguration |
| `PoolSafety.RecyclingSlotIsServed` | internal/runnerpool/worker.go:71-136 | each busy slot of a served VM has a goroutine that frees it once the job or resume it waits for returns, an adopted binding without an execution id excepted |
| `PoolStalls.StalledDrainRecyclesItsVm` | internal/runnerpool/worker.go:112-136 | in every run a job whose drain stalled leads to a mark on its VM before that slot takes another job |
| `PoolStalls.FailedResumeRecyclesItsVm` | internal/runnerpool/worker.go:71-110 | so does a resume that neither reached the job's end nor was detached |
| `PoolReaping.RecycleIsJustified` | internal/runnerpool/reap.go:42-109 | a context cancelled for a recycle belongs to a binding that was bound, by its own bind time, for MaxBind, or for PickupTimeout with that pass's probe not listing its slot |
| `PoolReaping.RequestReachesItsBinding` | internal/runnerpool/pool.go:560-590 | whatever was rebound since the snapshot, a request that acts reaches the very binding of the snapshot |
| `PoolReaping.MatchIsSameBinding` | internal/runnerpool/pool.go:560-590 | equal ids and bind time of a reapable candidate mean the same binding, given a clock that never runs back |
| `PoolReaping.BindingWarnedOnce` | internal/runnerpool/reap.go:85-109 | no binding is reaped twice by any number of passes |
| `PoolReaping.VmProbedOnce` | internal/runnerpool/reap.go:42-75 | a pass probes a VM at most once and keeps to that answer |
| `PoolReaping.WarningsAreSettled` | internal/runnerpool/reap.go:77-109 | between passes every warned binding sits on a marked VM |
| `PoolIdle.IdleClockIsTruthful` | internal/runnerpool/pool.go:857-883 | an attached unmarked VM has its idle clock running exactly while no slot is busy |
| `PoolReady.ReadyHasClaimer` | internal/runnerpool/pool.go:390-429 | a pool that reports Ready has a slot whose goroutine is about to take a job |
| `PoolReady.ClaimKeepsReady` | internal/runnerpool/pool.go:390-429 | a claim takes one job and one idle slot, so the pool stays Ready |
| `PoolReady.ReadyIsTruthful` | internal/runnerpool/pool.go:390-429 | from Ready any schedule of claims takes at most the backlog, keeps the pool Ready and leaves a slot about to take one job more |
| `PoolReady.ReadyServesTheBacklog` | internal/runnerpool/pool.go:390-429 | from Ready there is a schedule, of slot turns and starts of slot goroutines alone, that serves the whole backlog and leaves the pool Ready with a slot about to take one job more |
| `GuestRegistry.Execution.AppendEventLocked` | internal/guestexec/registry.go:606-615 | appends the next event and re-establishes the byte cap |
| `GuestRegistry.Execution.EnforceLogByteCapLocked` | internal/guestexec/registry.go:633-645 | the forward cursor restores the cap without touching events it passed |
| `GuestRegistry.Execution.ShowsRetained` | internal/guestexec/registry.go:633-645 | the log equals a full rescan: a chunk keeps its data iff the bytes from it on fit the cap; the counter is the live bytes; total scanning is linear |
| `GuestRegistry.Execution.AppendHeartbeat` | internal/guestexec/registry.go:597-604 | a heartbeat only while running |
| `GuestRegistry.Execution.MarkReaped` | internal/guestexec/registry.go:475-482 | the supervisor's first section records the reported exit and marks the execution reaped |
| `GuestRegistry.Execution.ReadNext` | internal/guestexec/registry.go:688-716 | one turn of a subscriber: the next retained event, the end once stopped, or a wait |
| `GuestRegistry.Registry.CheckAdmissionLocked` | internal/guestexec/registry.go:195-216 | the idempotent admission outcome |
| `GuestRegistry.Registry.Register` | internal/guestexec/registry.go:223-294 | records an admitted execution; an incomplete specification or a refused admission changes nothing |
| `GuestRegistry.Registry.Drain` | internal/guestexec/registry.go:404-417 | refuses further executions and closes the drained channel when idle |
| `GuestRegistry.Registry.CompleteExecution` | internal/guestexec/registry.go:517-545 | appends phase and terminal, frees the slot and settles the drain in one section |
| `GuestRegistry.Registry.Expire` | internal/guestexec/registry.go:508-515 | forgets the execution only if its id still leads to it |
| `GuestRegistry.Registry.ExecutionByPIDLocked` | internal/guestexec/registry.go:438-455 | prefers a live owner of the pid, whatever order the map yields |
| `GuestRegistry.Registry.Cancel` | internal/guestexec/registry.go:344-369 | marks a live execution cancelled once its process group was killed |
| `GuestRegistry.Registry.List` | internal/guestexec/registry.go:372-401 | every registered execution once, sorted by id |
| `EventLog.RetainedFitsCap` | internal/guestexec/registry.go:617-645 | live log bytes never exceed the cap |
| `EventLog.NewestChunkKept` | internal/guestexec/registry.go:617-645 | a newest chunk that fits the cap is never evicted |
| `EventLog.EvictionIsFinal` | internal/guestexec/registry.go:617-645 | a later log shows an event as before or without its data |
| `EventLog.NothingEvictedNeedlessly` | internal/guestexec/registry.go:617-645 | data is dropped oldest first, and what is left would not fit the cap with the last one dropped |
| `GuestSafety.LogsKeepTheirShape` | internal/guestexec/registry.go:475-615 | in every interleaving sequences are 1..n, phase "running" comes first, a terminal exists iff stopped, is unique, last and right after "completed" |
| `GuestSafety.StreamsCarryTheirPipes` | internal/guestexec/registry.go:547-589 | stdout chunks concatenate to the stdout pipe; stderr chunks to the stderr pipe exactly when no read failed |
| `GuestSafety.TerminalFollowsAllOutput` | internal/guestexec/registry.go:471-491 | when the terminal is out, everything read from stdout is in the log, and everything read from stderr exactly when no read failed |
| `GuestSafety.TerminalReportsTheExit` | internal/guestexec/registry.go:517-537 | the terminal carries the recorded exit, any code outside 0 to 2147483647 as -1, so its code is 0 iff the exit was, and the cancel message iff cancelled |
| `GuestExits.FirstReportCounts` | internal/guestexec/registry.go:296-316 | in every run a reaped execution had a report delivered, its exit is that of the first one delivered to it, and so is the terminal's but for the clamp and a cancel message |
| `GuestExits.LaterReportsChangeNothing` | internal/guestexec/registry.go:296-316 | after one report any other delivery to the execution leaves the guest as it is |
| `GuestExits.RetainedUntilSettled` | internal/guestexec/registry.go:475-515 | an execution is registered under its id exactly until its retention has ended |
| `GuestOutcomes.CancelledIffKilled` | internal/guestexec/registry.go:344-369 | in every run an execution is cancelled iff a cancel killed its process group while it ran unreaped |
| `GuestOutcomes.TerminalTellsTheCancel` | internal/guestexec/registry.go:517-537 | the terminal says "execution cancelled" if such a kill happened, otherwise the first report's message, with that report's exit |
| `GuestOutcomes.CancelMarksTheLive` | internal/guestexec/registry.go:344-369 | a cancel changes that flag alone, and cancelling twice is cancelling once |
| `GuestOutcomes.AdmissionAnswers` | internal/guestexec/registry.go:195-216 | in every reachable state each of the five answers iff its condition on draining, on the execution retained under the id and on what runs on the slot |
| `GuestOutcomes.AcceptedIsRecorded` | internal/guestexec/registry.go:223-294 | an accepted request becomes one running execution with the request's fields, found by id and slot; all else is as before |
| `GuestOutcomes.CompletedIsSettled` | internal/guestexec/registry.go:517-545 | completion appends phase and terminal, frees exactly its slot and closes the drained channel iff it was the last of a drain |
| `GuestOutcomes.DrainingSinceTold` | internal/guestexec/registry.go:404-417 | the guest drains exactly since it was first told to |
| `GuestOutcomes.DrainRefuses` | internal/guestexec/registry.go:404-417 | a drain refuses every admission and closes the channel at once iff nothing is active |
| `GuestOutcomes.ExpiryForgetsItsOwn` | internal/guestexec/registry.go:508-515 | the end of retention removes the id iff it leads to that execution, and nothing else |
| `GuestOutcomes.BeatIsLogged` | internal/guestexec/registry.go:597-604 | a heartbeat is appended iff the execution runs, so never behind its terminal |
| `GuestSafety.BooksBalance` | internal/guestexec/registry.go:517-545 | active count = taken slots = running executions; drained closed exactly once, iff draining and idle |
| `GuestSafety.SlotIffRunning` | internal/guestexec/registry.go:508-537 | a slot leads to an execution iff that runs on it; forgotten or finished executions hold none |
| `GuestSafety.OneRetainedExecutionPerId` | internal/guestexec/registry.go:195-216 | of two executions under one id the earlier has stopped and was forgotten |
| `GuestSafety.PreparationIsExclusive` | internal/guestagent/guestagent.go:156-200 | while a slot is prepared nothing runs on it and no other call is in its critical section |
| `GuestSafety.LateRefusals` | internal/guestagent/guestagent.go:156-210 | between preparation and registration an admission fails iff draining or the id was taken through another slot |
| `GuestHistory.RunIsLater` | internal/guestexec/registry.go:606-615 | logs only grow, keep their prefix, and are final once stopped |
| `HostDrain.DrainStream` | internal/broker/bind.go:485-510 | follows one stream to its first terminal; cursor and run log match what was processed |
| `HostDrain.DrainToTerminal` | internal/broker/bind.go:422-465 | reconnects from the cursor until a terminal, an unknown execution, a stall or the context's end |
| `HostDrain.DrainJob` | internal/broker/bind.go:361-401 | follows, and on a custom cancel cause cancels the guest job and follows again from the same cursor; each of the five errors iff its end: a nonzero terminal before any cancel, a stall, a detach, none, or a teardown that failed or timed out |
| `HostDrain.RunJob` | internal/broker/bind.go:268-318 | drains from the first event exactly for the three outcomes that name an execution, with the same errors |
| `HostDrain.FollowIsExact` | internal/broker/bind.go:422-510 | for any pattern of failed opens and drops one drain over truthful streams processes the log exactly once, in order |
| `HostDrain.DrainedExactlyOnce` | internal/broker/bind.go:361-510 | so do both phases together, across the switch to the teardown drain |
| `HostDrain.AttemptDecides` | internal/broker/bind.go:422-510 | what each attempt comes to, in the code's order of tests: context, unknown execution, the first terminal, an idle stream, a gone execution, the context again, or the next attempt behind the last event |
| `HostDrain.RunLogIsTheLog` | internal/broker/bind.go:485-510 | the run log holds the data of every chunk from start to cursor, each where the chunks before it end, and nothing else, if no chunk was evicted |
| `DeliveryScripts.ReturnedDrainRanTheLoops` | internal/broker/bind.go:361-510 | every returned drain of the composed system did what the host's loops compute on the rounds it met, and if it read one execution only (as for an id accepted once) those rounds' streams are truthful |
| `DeliverySafety.ProcessedExactlyOnce` | internal/broker/bind.go:422-510 | guest and host composed: processed sequence numbers are from+1, from+2, ... up to the cursor, each event the one so numbered in a log of that id, a terminal only at the end |
| `DeliverySafety.SoleMeansOnly` | internal/broker/bind.go:551-555 | an id accepted once leads every stream of a drain to one execution |
| `DeliverySafety.ProcessedTheLog` | internal/guestexec/registry.go:688-716 | what came from one execution is its log behind the start, whole or with evicted chunks bare, and a terminal outcome means to its very end |
| `DeliverySafety.TerminalStaysAhead` | internal/broker/bind.go:766-789 | until a drain returned with a terminal its cursor is below the terminal of the execution it last read or was adopted from |
| `DeliverySafety.CursorIsBeforeTheTerminal` | internal/broker/bind.go:422-465 | for an id accepted once no drain, resumed or adopted, can skip past the terminal; StrandsIffExposed says when else |
| `DeliveryRetention.RetainedIsNeverStranded` | internal/guestexec/registry.go:688-716 | in every run: while the id still leads to the execution the cursor came from, no stream of the drain is over without its terminal |
| `DeliveryRetention.RetainedOpenIsAhead` | internal/broker/bind.go:422-465 | the open of a drain whose id is retained meets that execution, and its terminal is ahead of the cursor |
| `Stranding.StrandsIffExposed` | internal/broker/bind.go:422-465 | of a drain about to open, in every reachable state: some continuation that neither moves its cursor nor forgets its execution brings it to a stream that is over without a terminal iff the cursor is 3 or more, the execution is forgotten, and the guest accepts executions or has one under the id that can end by the cursor |
| `Stranding.StrandsIffForgotten` | internal/guestexec/registry.go:195-216 | while the guest is not draining, and from cursor 3 on, that is iff the retention of the execution has ended |
| `DeliveryLoss.ResumedDrainMissesTheTerminal` | internal/guestexec/registry.go:688-716 | a run in which a drain reads three events, its execution is forgotten, its id accepted again, and the stream it resumes ends without a terminal |
| `DeliveryHandover.AdoptedDrainSkipsTheGap` | internal/broker/bind.go:766-789 | if the next host's listing begins after a drain detached with its execution retained, the adopted drain starts at or behind the old cursor, and of all numbers just those between the two are received by neither, the others by one of them |
| `DeliverySafety.ReopenedStreamReachesTerminal` | internal/guestexec/registry.go:688-716 | a stream on a stopped execution delivers the terminal iff its cursor is before it |
| `DeliveryRetention.StreamEndsBehindTheTerminal` | internal/guestagent/guestagent.go:214-245 | a stream the guest ended has the terminal last on the wire if the id is retained, the stream is on the execution the cursor came from, the cursor is below 3, or the id was accepted once |
| `DeliverySafety.SleepingSubscriberMissesNothing` | internal/guestexec/registry.go:688-716 | a subscriber asleep on the current generation has no unread event and its execution runs |
| `DeliverySafety.ListedEntriesDiffer` | internal/guestexec/registry.go:372-401 | a listing repeats no id and never shows two running executions on one slot |
| `GuestReports.Slots` | internal/guestagent/guestagent.go:284-301 | a slot is reported busy iff a listed running execution is on it, under its id |
| `GuestReports.RunningSlots` | internal/broker/bind.go:639-659 | the probe is exactly the set of slots with a running execution |
| `GuestReports.OneRunningEntryPerSlot` | internal/guestexec/registry.go:372-401 | so no listed entry hides another one on its slot |
| `Adoption.ReattachSlotsOf` | internal/broker/bind.go:766-789 | the bindings are those of running executions on known slots, in listing order, as BindingsAreTheRunningEntries spells out |
| `Adoption.Select` | internal/broker/bind.go:734-754 | busy first, then idle, up to the limit; only left-over idle VMs are torn down |
| `Adoption.Adopt` | internal/broker/bind.go:676-762 | the whole adoption pass over name-sorted candidates |
| `Adoption.RankingIsExact` | internal/broker/bind.go:676-733 | the ranking holds each reachable running pool VM once, busy before idle, each group by name |
| `Adoption.AdoptTakesThePrefix` | internal/broker/bind.go:734-762 | adopted is the ranking's prefix of `limit` elements; torn down are exactly the idle VMs behind it |
| `Adoption.AdoptedSlotsDiffer` | internal/broker/bind.go:766-789 | bindings from any listing of any guest run name every slot at most once |
| `AdoptedCursors.BindingsAreTheRunningEntries` | internal/broker/bind.go:766-789 | the bindings are, each once and in listing order, the running entries on known slots: slot, repository, job, run, execution id and cursor field by field |
| `AdoptedCursors.EntryWasRead` | internal/guestexec/registry.go:372-401 | every listed entry tells its execution as it was at one moment of the run, its last sequence the length of the log |
| `AdoptedCursors.BindingResumesBelowTheTerminal` | internal/broker/bind.go:766-789 | in every run each binding is under its execution's id, slot, job and run, the drain adopted from its entry starts at the binding's cursor, and that is below the execution's terminal |
| `Adoption.InstalledSlotsAreTheBindings` | internal/runnerpool/adopt.go:22-76 | installed slots are busy exactly on the bindings, with their ids and cursors |
| `Adoption.WorkersGetTheirVms` | internal/runnerpool/adopt.go:22-76 | worker i of the installed pool serves the i-th adopted VM from now, each slot carrying the binding for it (ids, cursor, bind time) or free, the idle clock running iff none is busy; workers beyond them are untouched |
| `Adoption.StartBeginsARun` | internal/runnerpool/pool.go:300-328 | Start with any queued jobs and any adopted VMs of distinct names yields an initial state of the pool's runs |
| `GoldenBuilder.Builder.CloneAndBoot` | internal/golden/build.go:501-521 | clone and boot, tearing the clone down when it does not come up |
| `GoldenBuilder.Builder.VerifyBooted` | internal/golden/build.go:573-629 | the checks in order, stopping at the first failure |
| `GoldenBuilder.Builder.Build` | internal/golden/build.go:334-409 | the whole build with its early exits |
| `GoldenBuilder.Builder.Ensure` | internal/golden/build.go:163-202 | keep a current golden, build otherwise |
| `GoldenSafety.VerifyBootedProves` | internal/golden/build.go:573-629 | an image that passes is proven, every check spelled out; a proven one passes unless a call fails |
| `GoldenSafety.BuildSurvives` | internal/golden/build.go:334-409 | the live golden ends unchanged, or equal to the staging image that passed, or absent only after promotion's delete succeeded and its clone failed |
| `GoldenSafety.FailedBuildKeepsGoldenIff` | internal/golden/build.go:334-409 | with separate scratch names a failed build keeps the golden iff promotion was not reached, or its delete failed, or there was none; otherwise the golden is gone |
| `GoldenSafety.PromotionCanLoseTheGolden` | internal/golden/build.go:334-409 | a build that fails in promotion's clone and leaves no golden where there was one |
| `GoldenSafety.UndisturbedBuildDelivers` | internal/golden/build.go:334-409 | when no call fails and the provisioner's disk passes, the build succeeds with that disk as the golden and leaves no scratch VM |
| `GoldenSafety.VerifyVmIsGone` | internal/golden/build.go:501-571 | the verify VM is gone unless its last delete, or the one before its clone, failed |
| `GoldenSafety.FailedScratchIsGone` | internal/golden/build.go:352-376 | a scratch VM that could not be prepared is gone under the same condition |
| `GoldenSafety.RejectedStagingIsGone` | internal/golden/build.go:383-389 | a staging image that failed verification is gone unless the build's last call, its delete, failed |
| `GoldenSafety.SurvivesIffSeparate` | internal/golden/build.go:334-409 | that holds for every failure pattern iff neither scratch VM bears the golden's name |
| `GoldenSafety.ExtendedNamesAreSeparate` | internal/golden/build.go:163-172 | scratch names that extend the golden's name, the default included, meet that condition |
| `GoldenSafety.CheckCachedExact` | internal/golden/build.go:251-281 | a probe leaves the golden alone and, without failures, accepts it iff it is current |
| `GoldenSafety.ProbeVmIsGone` | internal/golden/build.go:251-281 | the VM that probed a cached golden is gone unless the last call, its delete, failed |
| `GoldenSafety.EnsureMakesCurrent` | internal/golden/build.go:163-202 | success means a proven, current golden whether kept or rebuilt; failure leaves it or loses it in promotion only |
| `GoldenSafety.ReusedIffCurrent` | internal/golden/build.go:163-202 | without failing calls the build is skipped iff the golden is current |
| `GoldenSafety.UndisturbedEnsureSucceeds` | internal/golden/build.go:163-202 | when nothing fails an ensure with an image succeeds |
| `GoldenSafety.RepeatingDoesNotRebuild` | internal/golden/build.go:157-202 | a successful ensure repeated with the same binary keeps the golden as it is |
| `Fingerprint.Compute` | internal/golden/fingerprint.go:41-66 | hashes exactly the labelled, NUL-ended fields with payloads sorted by name |
| `Fingerprint.IdentifiesIffDelimits` | internal/golden/fingerprint.go:34-66 | for every set of characters: equal texts mean the same image, for all images over it with distinct payload names, iff the set has no NUL or spells no tag that follows a field |
| `Fingerprint.NulDecides` | internal/golden/fingerprint.go:59-66 | over characters that can spell such a tag, no two images collide iff NUL is not among them |
| `Fingerprint.PreimageIdentifies` | internal/golden/fingerprint.go:34-66 | for NUL-free fields and distinct payload names equal texts mean equal scalars and the same payloads in any order |
| `Fingerprint.NulsCollide` | internal/golden/fingerprint.go:59-66 | with a NUL in a field two different images get one text, for every choice of the other fields |
| `Fingerprint.SharedNamesKeepTheirOrder` | internal/golden/fingerprint.go:47-56 | under a stable sort two payloads that share a name make the text depend on their order |
| `TailBuffer.Buffer.Write` | internal/tart/tart.go:177-192 | accepts everything and keeps the last `limit` bytes, shifting in place |
| `TailBuffer.KeptIsTail` | internal/tart/tart.go:165-196 | however the output is cut into writes the buffer is its suffix and never longer than the limit |
| `TailBuffer.WriteAll` | internal/tart/tart.go:165-196 | the same for a client running one buffer from start to end |
| `Names.NextIDsDiffer` | internal/runnerpool/worker.go:31-37 | ids of one counter differ even when the run token changes |
| `Names.ExecutionIDIdentifies` | internal/broker/bind.go:551-555 | an execution id names one repository, run and job |
| `Sorting.SortIgnoresOrder` | internal/golden/fingerprint.go:47-51 | sorting by keys that identify the elements forgets the input order |

## Left out

- Choice of idle and aged VMs in a reconcile pass, and its GitHub runner cross-check: any caller may request the recycle of an idle VM at any time, which covers whatever the pass decides.
- Process launch, pipes, waiting and killing: a pipe is the byte sequence it delivers, an exit is one report, a kill succeeds or not.
- The release path through an execution's `stopped` channel: no live code closes it.
- The base image stager: it only changes where the base is pulled from.
- The provisioner's steps inside the build VM: one call that may leave any disk, failing or not.
- Warm: cloning, booting and seeding a pool VM appear as one step that returns a fresh VM or an error.
- JIT configuration, the guest connection and its retries: they succeed or not.
- Deadlines and tickers: a timeout, a heartbeat and an idle watchdog may fire at any moment.
- Status views, run-log files, metrics, the config watcher, HTTP handlers and generated protocol code.
- `runnerNameForSlot` and `runnerNameBelongsToVM`: one reading settles them.
- Integer widths: sequence numbers, counters and cursors are unbounded; only the exit code is clamped as the code does.
- Hashing: the hash is an arbitrary function of the text.
- RunnerPool.Pool.Reconfigure: the injected clock is not an option here, because every section that reads the time is given it.
- HostDrain.DrainToTerminal: a drain's environment is a script of finitely many attempts after which the context is done, since a loop that never ends returns nothing to speak of.
- DeliverySafety.CursorIsBeforeTheTerminal: holds for an id accepted once, because a forgotten id may be accepted again and then names another log; `Stranding.StrandsIffExposed` is the exact condition for any id.
- PoolSafety.NoLostWakeup: leaves out cancellation of the pool's context, which by itself wakes nobody; the context watcher's shutdown step does.
- Fingerprint.PreimageIdentifies: is about strings of characters, not their UTF-8 bytes.
- TailBuffer.Buffer.Write: the limit is a natural number, because a buffer with a negative one cannot be made.
