/** What any single act can do to a worker and to the job queue, act by act. */
module PoolEffects {
  import opened Wrappers
  import opened PoolSections
  import opened PoolRuns
  import opened PoolWorkers

  /** The VM in the worker goroutine's hands. */
  function PcVm(pc: WorkerPc): Option<VmName> {
    match pc
    case Activating(vm, _) => Some(vm)
    case Spawning(vm) => Some(vm)
    case TearingDown(vm) => Some(vm)
    case _ => ServedVm(pc)
  }

  /** The worker keeps its VM: the slot vector keeps its length and a recycle mark stays. */
  predicate KeepsVm(w: WorkerState, w': WorkerState) {
    w'.vm == w.vm && (w.vm.Some? ==> |w'.slots| == |w.slots| && (w.recycle ==> w'.recycle))
  }

  /** The worker's wait detaches a marked, idle VM for teardown. */
  predicate DetachesVm(s: Sys, w: WorkerState, t: Task, w': WorkerState, t': Task) {
    && !s.pool.shuttingDown && !s.ctxDone && w.recycle && !Busy(w)
    && t.pc.Waiting? && w.vm == Some(t.pc.vm) && w'.vm.None? && t' == t.(pc := Leaving(t.pc.vm, true))
  }

  /** Everything an act may do to a worker and its goroutine. */
  predicate WorkerMoves(s: Sys, w: WorkerState, t: Task, w': WorkerState, t': Task) {
    || (KeepsVm(w, w') && PcVm(t'.pc) == PcVm(t.pc) && (t'.pc == t.pc || !t'.pc.Leaving? || !t'.pc.recycle))
    || (KeepsVm(w, w') && t.pc.Claiming? && w.vm.Some? && t'.pc == Spawning(w.vm.value))
    || DetachesVm(s, w, t, w', t')
    || (t.pc.Activating? && w.vm.None? && w'.vm == Some(t.pc.vm) && t'.pc == Spawning(t.pc.vm))
    || (t.pc.Joining? && KeepsVm(w, w')
        && t' == t.(pc := if t.pc.recycle then TearingDown(t.pc.vm) else Clearing(false)))
    || (t.pc.Clearing? && w'.vm.None? && PcVm(t'.pc).None?)
  }

  /** The one act by which a worker comes to own a new VM. */
  predicate WarmsVm(s: Sys, s': Sys, i: nat)
    requires i < |s.tasks| && i < |s'.tasks| && i < |s.pool.states| && i < |s'.pool.states|
  {
    && s.tasks[i].pc.Warming? && s'.tasks[i].pc.Activating? && s.pool.states[i].vm.None?
    && s'.pool.states[i].vm.None?
    && s'.tasks[i].pc.vm !in s.used && s'.used == s.used + {s'.tasks[i].pc.vm} && s'.torn == s.torn
  }

  /** The one act by which a worker gives a VM up for good. */
  predicate TearsVmDown(s: Sys, s': Sys, i: nat)
    requires i < |s.tasks| && i < |s'.tasks| && i < |s.pool.states| && i < |s'.pool.states|
  {
    && s.tasks[i].pc.TearingDown? && s'.tasks[i].pc == Clearing(true)
    && s.pool.states[i].vm.None? && s'.pool.states[i].vm.None?
    && s'.torn == s.torn + [s.tasks[i].pc.vm] && s'.used == s.used
  }

  ghost predicate QueueMoves(s: Sys, s': Sys) {
    || (s'.pool.queue == s.pool.queue && s'.accepted == s.accepted && s'.dispatched == s.dispatched)
    || (!s.pool.shuttingDown && s'.dispatched == s.dispatched
        && exists job :: s'.pool.queue == s.pool.queue + [job] && s'.accepted == s.accepted + [job])
    || (!s.pool.shuttingDown && s'.accepted == s.accepted && |s.pool.queue| > 0
        && s'.pool.queue == s.pool.queue[1..] && s'.dispatched == s.dispatched + [s.pool.queue[0]])
  }

  predicate SameSize(s: Sys, s': Sys) {
    |s'.tasks| == |s.tasks| == |s.pool.states| == |s'.pool.states|
  }

  /** What every act does, without saying which act it was. */
  ghost predicate Effect(s: Sys, s': Sys) {
    && SameSize(s, s') && QueueMoves(s, s')
    && (s.pool.shuttingDown ==> s'.pool.shuttingDown)
    && exists i :: 0 <= i <= |s.tasks| && EffectAt(s, s', i)
  }

  predicate UnchangedAt(s: Sys, s': Sys, j: nat)
    requires SameSize(s, s') && j < |s.tasks|
  {
    s'.tasks[j] == s.tasks[j] && s'.pool.states[j] == s.pool.states[j]
  }

  /** Only worker i changed (none if i is no worker). */
  predicate EffectAt(s: Sys, s': Sys, i: nat)
    requires SameSize(s, s')
  {
    && (forall j :: 0 <= j < |s.tasks| && j != i ==> UnchangedAt(s, s', j))
    && (i < |s.tasks| ==>
          || (s'.used == s.used && s'.torn == s.torn
              && WorkerMoves(s, s.pool.states[i], s.tasks[i], s'.pool.states[i], s'.tasks[i]))
          || WarmsVm(s, s', i) || TearsVmDown(s, s', i))
    && (i == |s.tasks| ==> s'.used == s.used && s'.torn == s.torn)
  }

  /** The worker goroutine moves without touching the pool. */
  lemma MoveEffect(s: Sys, i: nat, a: WorkerAct)
    requires WorkersInv(s) && WorkerEnabled(s, i, a) && OnlyMoves(a)
    ensures Effect(s, WorkerApply(s, i, a))
  {
    var s' := WorkerApply(s, i, a);
    assert WorkerInv(s.pool, s.ctxDone, s.pool.states[i], s.tasks[i]);
    assert s'.pool == s.pool && s'.tasks == s.tasks[i := s'.tasks[i]];
    assert EffectAt(s, s', i);
  }

  lemma PollEffect(s: Sys, i: nat)
    requires WorkersInv(s) && WorkerEnabled(s, i, WPoll)
    ensures Effect(s, WorkerApply(s, i, WPoll))
  {
    var s' := WorkerApply(s, i, WPoll);
    var w, t := s.pool.states[i], s.tasks[i];
    assert WorkerInv(s.pool, s.ctxDone, w, t);
    if JudgeWorker(s.pool, i, t.pc.vm, s.ctxDone).DetachNow? {
      ResetReplaces(s.pool, i, w.(vm := None, recycle := false, warming := true, idleSince := 0),
                    s.pool.options.jobsPerVM);
      assert DetachesVm(s, w, t, s'.pool.states[i], s'.tasks[i]);
    } else {
      assert s'.pool == s.pool && s'.tasks == s.tasks[i := s'.tasks[i]];
    }
    assert EffectAt(s, s', i);
  }

  lemma ServeEffect(s: Sys, i: nat, a: WorkerAct)
    requires WorkersInv(s) && WorkerEnabled(s, i, a)
    requires a.WSpawn? || a.WCancelSlots? || a.WBroadcast? || a.WJoin?
    ensures Effect(s, WorkerApply(s, i, a))
  {
    var s' := WorkerApply(s, i, a);
    assert WorkerInv(s.pool, s.ctxDone, s.pool.states[i], s.tasks[i]);
    assert s'.pool.states == s.pool.states && s'.tasks == s.tasks[i := s'.tasks[i]];
    assert EffectAt(s, s', i);
  }

  lemma ResetEffect(s: Sys, i: nat, a: WorkerAct)
    requires WorkersInv(s) && WorkerEnabled(s, i, a) && Resets(a)
    ensures Effect(s, WorkerApply(s, i, a))
  {
    assert WorkerInv(s.pool, s.ctxDone, s.pool.states[i], s.tasks[i]);
    ResetResult(s, i, a);
    assert EffectAt(s, WorkerApply(s, i, a), i);
  }

  lemma SlotEndEffect(s: Sys, i: nat, k: nat, a: SlotAct)
    requires WorkersInv(s) && SlotEnabled(s, i, k, a) && Ends(a)
    ensures Effect(s, SlotApply(s, i, k, a))
  {
    EndResult(s, i, k, a);
    assert EffectAt(s, SlotApply(s, i, k, a), i);
  }

  lemma SlotPollEffect(s: Sys, i: nat, k: nat)
    requires WorkersInv(s) && SlotEnabled(s, i, k, SPoll)
    ensures Effect(s, SlotApply(s, i, k, SPoll))
  {
    var s' := SlotApply(s, i, k, SPoll);
    assert s'.pool.states == s.pool.states[i := s'.pool.states[i]] && s'.tasks == s.tasks[i := s'.tasks[i]];
    assert KeepsVm(s.pool.states[i], s'.pool.states[i]) && s'.tasks[i].pc == s.tasks[i].pc;
    assert EffectAt(s, s', i);
  }

  lemma SlotQuietEffect(s: Sys, i: nat, k: nat, a: SlotAct)
    requires WorkersInv(s) && SlotEnabled(s, i, k, a) && !Ends(a) && !a.SPoll?
    ensures Effect(s, SlotApply(s, i, k, a))
  {
    var s' := SlotApply(s, i, k, a);
    assert s'.pool.states == s.pool.states[i := s'.pool.states[i]] && s'.tasks == s.tasks[i := s'.tasks[i]];
    assert EffectAt(s, s', i);
  }

  lemma PassActEffect(s: Sys, j: nat, a: PassAct)
    requires WorkersInv(s) && PassEnabled(s, j, a)
    ensures Effect(s, PassApply(s, j, a))
  {
    var s' := PassApply(s, j, a);
    if s'.pool == s.pool {
      assert EffectAt(s, s', |s.tasks|);
    } else {
      assert EffectAt(s, s', s.passes[j].candidates[s.passes[j].at].index);
    }
  }

  lemma CancelSlotEffect(s: Sys, i: nat, k: nat, cause: Cause)
    requires |s.tasks| == |s.pool.states| && i < |s.pool.states| && k < |s.pool.states[i].slots|
    ensures Effect(s, s.(pool := CancelSlot(s.pool, i, k, cause)))
  {
    hide EmptySlot, CancelContext;
    assert EffectAt(s, s.(pool := CancelSlot(s.pool, i, k, cause)), i);
  }

  lemma RequestRecycleEffect(s: Sys, i: nat, vm: VmName, err: Option<Err>)
    requires |s.tasks| == |s.pool.states| && i < |s.pool.states|
    ensures Effect(s, s.(pool := RequestRecycle(s.pool, i, vm, err)))
  {
    assert EffectAt(s, s.(pool := RequestRecycle(s.pool, i, vm, err)), i);
  }

  lemma CancelEffect(s: Sys, a: Act)
    requires WorkersInv(s) && Enabled(s, a) && (a.DoCancelRun? || a.DoRequestRecycle?)
    ensures Effect(s, Apply(s, a))
  {
    hide WorkerInv, SleepsPast, CancelSlot, RequestRecycle;
    if a.DoRequestRecycle? {
      RequestRecycleEffect(s, a.i, a.vm, a.err);
    } else {
      match FindBusy(s.pool.states, a.jobID, 0) {
        case None => assert EffectAt(s, Apply(s, a), |s.tasks|);
        case Some((i, k)) => CancelSlotEffect(s, i, k, CancelRunCause);
      }
    }
  }

  lemma QuietEffect(s: Sys, a: Act)
    requires WorkersInv(s) && Enabled(s, a)
    requires !a.WorkerStep? && !a.SlotStep? && !a.PassStep? && !a.DoCancelRun? && !a.DoRequestRecycle?
    ensures Effect(s, Apply(s, a))
  {
    var s' := Apply(s, a);
    assert s'.pool.states == s.pool.states && s'.tasks == s.tasks;
    assert a.DoEnqueue? && !s.pool.shuttingDown ==>
             s'.pool.queue == s.pool.queue + [a.job] && s'.accepted == s.accepted + [a.job];
    assert EffectAt(s, s', |s.tasks|);
  }

  lemma EveryEffect(s: Sys, a: Act)
    requires WorkersInv(s) && Enabled(s, a)
    ensures Effect(s, Apply(s, a))
  {
    match a {
      case WorkerStep(i, w) =>
        if Resets(w) { ResetEffect(s, i, w); }
        else if OnlyMoves(w) { MoveEffect(s, i, w); }
        else if w.WPoll? { PollEffect(s, i); }
        else { ServeEffect(s, i, w); }
      case SlotStep(i, k, x) =>
        if Ends(x) { SlotEndEffect(s, i, k, x); }
        else if x.SPoll? { SlotPollEffect(s, i, k); }
        else { SlotQuietEffect(s, i, k, x); }
      case PassStep(j, p) => PassActEffect(s, j, p);
      case DoCancelRun(_) => CancelEffect(s, a);
      case DoRequestRecycle(_, _, _) => CancelEffect(s, a);
      case _ => QuietEffect(s, a);
    }
  }
}
