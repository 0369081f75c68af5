/**
 The running pool: its critical sections interleaved in every order by the worker goroutines,
 the slot goroutines, the reconcile passes and outside callers.

 A goroutine asleep on the condition variable remembers the broadcast count at which it went to
 sleep; it is still asleep exactly while no broadcast has followed.
 */
module PoolRuns {
  import opened Wrappers
  import opened PoolSections

  datatype SlotPc =
    | Fresh                                   // before claimResumeSlot
    | Resuming(bind: nat)                     // inside ResumeJob
    | Resumed(err: Option<Err>)               // ResumeJob returned
    | Polling(slept: Option<nat>)             // inside waitForSlotJob
    | Running(job: Job, bind: nat)            // inside RunJob
    | Finished(err: Option<Err>)              // RunJob returned, finishSlotJob pending
    | Stalled(err: Option<Err>)               // between finishSlotJob and the recycle of a stall
    | Gone

  datatype WorkerPc =
    | Claiming
    | MustWarm                                // before markWarming
    | Choosing                                // before reading the warm options
    | Warming(slotCount: int)                 // inside Warm
    | WarmFailed(err: Err)                    // before markWarmError
    | Backoff
    | Activating(vm: VmName, slotCount: int)  // Warm returned the VM
    | Spawning(vm: VmName)
    | Waiting(vm: VmName, slept: Option<nat>) // inside waitForWorkerRecycleOrShutdown
    | Leaving(vm: VmName, recycle: bool)      // the wait returned
    | Cancelled(vm: VmName, recycle: bool)    // the slot context is cancelled
    | Joining(vm: VmName, recycle: bool)      // after the broadcast, waiting for the slots
    | TearingDown(vm: VmName)
    | Clearing(again: bool)
    | Exited

  datatype Task = Task(pc: WorkerPc, slots: seq<SlotPc>)

  datatype Pass = Pass(
    candidates: seq<BusyCandidate>, options: Option<Options>, at: nat,
    probes: map<VmName, Probe>, requesting: bool)

  /** Why one binding was reaped: the candidate and what the pass knew. */
  datatype Evidence = Evidence(c: BusyCandidate, options: Options, probes: map<VmName, Probe>)

  /** `used` and everything after it are histories. */
  datatype Sys = Sys(
    pool: PoolData, tasks: seq<Task>, passes: seq<Pass>, now: int, ctxDone: bool, hasProber: bool,
    used: set<VmName>, torn: seq<VmName>, accepted: seq<Job>, dispatched: seq<Job>,
    warned: seq<nat>, evidence: map<nat, Evidence>)

  datatype WorkerAct =
    | WClaim | WMarkWarming | WChoose | WWarmed(vm: VmName) | WWarmFails(err: Err) | WMarkError
    | WRetry | WGiveUp | WActivate | WSpawn | WPoll | WCancelSlots | WBroadcast | WJoin
    | WTeardown | WClear

  datatype SlotAct =
    | SClaimResume | SResumeReturns(result: Option<Err>) | SResumeEnds
    | SPoll | SJobReturns(result: Option<Err>) | SFinish | SRecycle

  datatype PassAct = PReadOptions | PSkip | PProbe(probe: Probe) | PWarn | PRequest

  datatype Act =
    | Tick(to: int)
    | DoEnqueue(job: Job)
    | DoReconfigure(options: Options)
    | DoCancelRun(jobID: int)
    | DoShutdown                              // Shutdown, or the context watcher
    | CancelPoolContext
    | DoRequestRecycle(i: nat, vm: VmName, err: Option<Err>)
    | StartPass
    | PassStep(j: nat, pass: PassAct)
    | WorkerStep(i: nat, worker: WorkerAct)
    | SlotStep(i: nat, k: nat, slot: SlotAct)

  // ----- worker goroutine -------------------------------------------------------------------

  predicate Awake(slept: Option<nat>, wakes: nat) {
    slept.None? || slept.value < wakes
  }

  /** The context of the worker's slot goroutines. */
  predicate SlotCtxDone(s: Sys, i: nat)
    requires i < |s.tasks|
  {
    s.ctxDone || s.tasks[i].pc.Cancelled? || s.tasks[i].pc.Joining?
  }

  predicate AllGone(pcs: seq<SlotPc>) {
    forall k :: 0 <= k < |pcs| ==> pcs[k].Gone?
  }

  predicate WorkerEnabled(s: Sys, i: nat, a: WorkerAct) {
    && i < |s.tasks| && i < |s.pool.states|
    && var t := s.tasks[i];
       match a
       case WClaim => t.pc.Claiming?
       case WMarkWarming => t.pc.MustWarm?
       case WChoose => t.pc.Choosing?
       case WWarmed(vm) => t.pc.Warming? && vm !in s.used
       case WWarmFails(_) => t.pc.Warming?
       case WMarkError => t.pc.WarmFailed?
       case WRetry => t.pc.Backoff?
       case WGiveUp => t.pc.Backoff? && s.ctxDone
       case WActivate => t.pc.Activating?
       case WSpawn => t.pc.Spawning?
       case WPoll => t.pc.Waiting? && Awake(t.pc.slept, s.pool.wakes)
       case WCancelSlots => t.pc.Leaving?
       case WBroadcast => t.pc.Cancelled?
       case WJoin => t.pc.Joining? && AllGone(t.slots)
       case WTeardown => t.pc.TearingDown?
       case WClear => t.pc.Clearing?
  }

  function Goto(s: Sys, i: nat, p: PoolData, pc: WorkerPc): Sys
    requires i < |s.tasks|
  {
    s.(pool := p, tasks := s.tasks[i := s.tasks[i].(pc := pc)])
  }

  function WorkerApply(s: Sys, i: nat, a: WorkerAct): Sys
    requires WorkerEnabled(s, i, a)
  {
    var p := s.pool;
    var t := s.tasks[i];
    match a
    case WClaim =>
      (match ClaimWorker(p, i)
       case Some(vm) => Goto(s, i, p, Spawning(vm))
       case None => Goto(s, i, p, MustWarm))
    case WMarkWarming => Goto(s, i, MarkWarming(p, i), Choosing)
    case WChoose => Goto(s, i, p, Warming(p.options.jobsPerVM))
    case WWarmed(vm) => Goto(s, i, p, Activating(vm, t.pc.slotCount)).(used := s.used + {vm})
    case WWarmFails(err) => Goto(s, i, p, WarmFailed(err))
    case WMarkError => Goto(s, i, MarkWarmError(p, i, t.pc.err), Backoff)
    case WRetry => Goto(s, i, p, MustWarm)
    case WGiveUp => Goto(s, i, p, Clearing(false))
    case WActivate =>
      Goto(s, i, ActivateWorker(p, i, t.pc.vm, t.pc.slotCount, s.now), Spawning(t.pc.vm))
    case WSpawn =>
      var n := if p.Holds(i, t.pc.vm) then |p.states[i].slots| else 0;
      s.(tasks := s.tasks[i := Task(Waiting(t.pc.vm, None), seq(n, _ => Fresh))])
    case WPoll =>
      (match JudgeWorker(p, i, t.pc.vm, s.ctxDone)
       case WorkerStop => Goto(s, i, p, Leaving(t.pc.vm, false))
       case VmGone => Goto(s, i, p, Leaving(t.pc.vm, true))
       case DetachNow => Goto(s, i, DetachWorker(p, i), Leaving(t.pc.vm, true))
       case WorkerSleep => Goto(s, i, p, t.pc.(slept := Some(p.wakes))))
    case WCancelSlots => Goto(s, i, p, Cancelled(t.pc.vm, t.pc.recycle))
    case WBroadcast => Goto(s, i, p.Broadcast(), Joining(t.pc.vm, t.pc.recycle))
    case WJoin =>
      Goto(s, i, p, if t.pc.recycle then TearingDown(t.pc.vm) else Clearing(false))
    case WTeardown => Goto(s, i, p, Clearing(true)).(torn := s.torn + [t.pc.vm])
    case WClear =>
      s.(pool := ClearWorker(p, i), tasks := s.tasks[i := Task(if t.pc.again then Claiming else Exited, [])])
  }

  // ----- slot goroutine ---------------------------------------------------------------------

  /** The VM the worker's slot goroutines were started for. */
  function ServedVm(pc: WorkerPc): Option<VmName> {
    match pc
    case Waiting(vm, _) => Some(vm)
    case Leaving(vm, _) => Some(vm)
    case Cancelled(vm, _) => Some(vm)
    case Joining(vm, _) => Some(vm)
    case _ => None
  }

  predicate SlotEnabled(s: Sys, i: nat, k: nat, a: SlotAct) {
    && i < |s.tasks| && i < |s.pool.states| && k < |s.tasks[i].slots| && ServedVm(s.tasks[i].pc).Some?
    && var pc := s.tasks[i].slots[k];
       match a
       case SClaimResume => pc.Fresh?
       case SResumeReturns(_) => pc.Resuming?
       case SResumeEnds => pc.Resumed?
       case SPoll => pc.Polling? && Awake(pc.slept, s.pool.wakes)
       case SJobReturns(_) => pc.Running?
       case SFinish => pc.Finished?
       case SRecycle => pc.Stalled?
  }

  function Move(s: Sys, i: nat, k: nat, p: PoolData, pc: SlotPc): Sys
    requires i < |s.tasks| && k < |s.tasks[i].slots|
  {
    s.(pool := p, tasks := s.tasks[i := s.tasks[i].(slots := s.tasks[i].slots[k := pc])])
  }

  function SlotApply(s: Sys, i: nat, k: nat, a: SlotAct): Sys
    requires SlotEnabled(s, i, k, a)
  {
    var p := s.pool;
    var pc := s.tasks[i].slots[k];
    var vm := ServedVm(s.tasks[i].pc).value;
    match a
    case SClaimResume =>
      if CanResume(p, i, k, vm, SlotCtxDone(s, i))
      then Move(s, i, k, ClaimResume(p, i, k), Resuming(p.states[i].slots[k].bind))
      else Move(s, i, k, p, Polling(None))
    case SResumeReturns(err) =>
      Move(s, i, k, p.(causes := CancelContext(p.causes, pc.bind, PlainCancel)), Resumed(err))
    case SResumeEnds =>
      if pc.err.None? || pc.err.value.JobTerminal? || pc.err.value.Canceled?
      then Move(s, i, k, FinishSlotJob(p, i, k, vm, pc.err, s.now), Polling(None))
      else Move(s, i, k, RecycleFreeingSlot(p, i, k, vm, pc.err), Gone)
    case SPoll =>
      (match JudgeSlot(p, i, k, vm, SlotCtxDone(s, i))
       case SlotStop => Move(s, i, k, p, Gone)
       case SlotSleep => Move(s, i, k, p, Polling(Some(p.wakes)))
       case SlotClaim =>
         Move(s, i, k, ClaimJob(p, i, k, s.now), Running(p.queue[0], p.nextBind))
           .(dispatched := s.dispatched + [p.queue[0]]))
    case SJobReturns(err) =>
      Move(s, i, k, p.(causes := CancelContext(p.causes, pc.bind, PlainCancel)), Finished(err))
    case SFinish =>
      Move(s, i, k, FinishSlotJob(p, i, k, vm, pc.err, s.now),
           if pc.err == Some(DrainStalled) then Stalled(pc.err) else Polling(None))
    case SRecycle => Move(s, i, k, RecycleFreeingSlot(p, i, k, vm, pc.err), Gone)
  }

  // ----- reap passes ------------------------------------------------------------------------

  /** The pass has its options and is about to act on candidate `at` with this decision. */
  predicate Deciding(s: Sys, pass: Pass, decision: ReapDecision) {
    && pass.options.Some? && pass.at < |pass.candidates| && !pass.requesting
    && Decide(pass.candidates[pass.at], pass.options.value, pass.probes, s.hasProber) == decision
  }

  predicate PassEnabled(s: Sys, j: nat, a: PassAct) {
    && j < |s.passes|
    && var pass := s.passes[j];
       match a
       case PReadOptions => pass.options.None?
       case PSkip => Deciding(s, pass, Keep)
       case PProbe(_) => Deciding(s, pass, NeedProbe)
       case PWarn => Deciding(s, pass, Reap)
       case PRequest => pass.options.Some? && pass.at < |pass.candidates| && pass.requesting
  }

  function PassApply(s: Sys, j: nat, a: PassAct): Sys
    requires PassEnabled(s, j, a)
  {
    var pass := s.passes[j];
    match a
    case PReadOptions => s.(passes := s.passes[j := pass.(options := Some(s.pool.options))])
    case PSkip => s.(passes := s.passes[j := pass.(at := pass.at + 1)])
    case PProbe(r) =>
      s.(passes := s.passes[j := pass.(probes := pass.probes[pass.candidates[pass.at].vm := r])])
    case PWarn =>
      var c := pass.candidates[pass.at];
      if MayWarn(s.pool, c)
      then s.(pool := WarnSlot(s.pool, c), passes := s.passes[j := pass.(requesting := true)],
              warned := s.warned + [s.pool.states[c.index].slots[c.slotIndex].bind])
      else s.(passes := s.passes[j := pass.(at := pass.at + 1)])
    case PRequest =>
      var c := pass.candidates[pass.at];
      s.(pool := RequestBusyRecycle(s.pool, c),
         passes := s.passes[j := pass.(at := pass.at + 1, requesting := false)],
         evidence := if Located(s.pool, c) && SameBinding(s.pool.states[c.index].slots[c.slotIndex], c)
                     then s.evidence[s.pool.states[c.index].slots[c.slotIndex].bind :=
                                       Evidence(c, pass.options.value, pass.probes)]
                     else s.evidence)
  }

  // ----- the whole system -------------------------------------------------------------------

  predicate Enabled(s: Sys, a: Act) {
    match a
    case Tick(to) => s.now <= to
    case DoEnqueue(_) => true
    case DoReconfigure(_) => true
    case DoCancelRun(_) => true
    case DoShutdown => true
    case CancelPoolContext => true
    case DoRequestRecycle(i, _, _) => i < |s.pool.states|
    case StartPass => true
    case PassStep(j, p) => PassEnabled(s, j, p)
    case WorkerStep(i, w) => WorkerEnabled(s, i, w)
    case SlotStep(i, k, x) => SlotEnabled(s, i, k, x)
  }

  function Apply(s: Sys, a: Act): Sys
    requires Enabled(s, a)
  {
    match a
    case Tick(to) => s.(now := to)
    case DoEnqueue(job) =>
      s.(pool := Enqueue(s.pool, job),
         accepted := if s.pool.shuttingDown then s.accepted else s.accepted + [job])
    case DoReconfigure(o) => s.(pool := Reconfigure(s.pool, o))
    case DoCancelRun(jobID) => s.(pool := CancelRun(s.pool, jobID))
    case DoShutdown => s.(pool := Shutdown(s.pool), ctxDone := true)
    case CancelPoolContext => s.(ctxDone := true)
    case DoRequestRecycle(i, vm, err) => s.(pool := RequestRecycle(s.pool, i, vm, err))
    case StartPass =>
      s.(passes := s.passes + [Pass(BusyCandidates(s.pool, |s.pool.states|, s.now), None, 0, map[], false)])
    case PassStep(j, p) => PassApply(s, j, p)
    case WorkerStep(i, w) => WorkerApply(s, i, w)
    case SlotStep(i, k, x) => SlotApply(s, i, k, x)
  }

  /** Busy slots of a worker that has not started serving are adopted ones nobody resumes yet. */
  predicate OnlyAdopted(w: WorkerState) {
    forall k :: 0 <= k < |w.slots| && w.slots[k].busy ==> w.slots[k].adopted && !w.slots[k].jobCancel
  }

  predicate Unattached(w: WorkerState) {
    w.vm.None? && !w.recycle && !Busy(w)
  }

  /** The pool just after Start installed the adopted VMs and launched the workers. */
  ghost predicate Init(s: Sys) {
    && 0 < s.now && s.pool.started && s.passes == [] && s.torn == [] && s.dispatched == []
    && s.warned == [] && s.evidence == map[] && s.pool.causes == map[]
    && s.accepted == s.pool.queue && |s.tasks| == |s.pool.states|
    && (forall i :: 0 <= i < |s.tasks| ==> s.tasks[i] == Task(Claiming, []))
    && (forall i :: 0 <= i < |s.tasks| ==>
          var w := s.pool.states[i];
          && !w.warming && (forall k :: 0 <= k < |w.slots| ==> w.slots[k].reapWarnedAt == 0)
          && (forall k :: 0 <= k < |w.slots| && !w.slots[k].busy ==> !w.slots[k].jobCancel)
          && (w.vm.Some? ==> (w.idleSince == 0 <==> Busy(w)))
          && if w.vm.Some? then w.vm.value in s.used && !w.recycle && OnlyAdopted(w) else Unattached(w))
    && (forall i, j :: 0 <= i < j < |s.tasks| && s.pool.states[i].vm.Some? ==>
          s.pool.states[i].vm != s.pool.states[j].vm)
    && BindsFresh(s.pool) && BindsDistinct(s.pool)
  }

  predicate BusyAt(p: PoolData, i: nat, k: nat) {
    i < |p.states| && k < |p.states[i].slots| && p.states[i].slots[k].busy
  }

  ghost predicate BindsFresh(p: PoolData) {
    forall i: nat, k: nat :: BusyAt(p, i, k) ==> p.states[i].slots[k].bind < p.nextBind
  }

  ghost predicate BindsDistinct(p: PoolData) {
    forall i: nat, k: nat, j: nat, m: nat :: BusyAt(p, i, k) && BusyAt(p, j, m) && (i, k) != (j, m) ==>
      p.states[i].slots[k].bind != p.states[j].slots[m].bind
  }

  /** A run: the states it passes through and the act taken in each. */
  ghost predicate IsRun(run: seq<Sys>, acts: seq<Act>) {
    && |run| == |acts| + 1
    && Init(run[0])
    && forall n :: 0 <= n < |acts| ==> Enabled(run[n], acts[n]) && run[n + 1] == Apply(run[n], acts[n])
  }
}
