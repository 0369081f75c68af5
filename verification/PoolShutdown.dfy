/** What a stop leaves to be torn down: nothing that was attached when it came. */
module PoolShutdown {
  import opened Wrappers
  import opened PoolSections
  import opened PoolRuns
  import opened PoolWorkers
  import opened PoolEffects
  import opened PoolSafety

  /** The VM that this worker detached for teardown and has not torn down yet. */
  function Detached(pc: WorkerPc): Option<VmName> {
    match pc
    case Leaving(vm, recycle) => if recycle then Some(vm) else None
    case Cancelled(vm, recycle) => if recycle then Some(vm) else None
    case Joining(vm, recycle) => if recycle then Some(vm) else None
    case TearingDown(vm) => Some(vm)
    case _ => None
  }

  predicate DetachedIn(s: Sys, vm: VmName) {
    exists i :: 0 <= i < |s.tasks| && Detached(s.tasks[i].pc) == Some(vm)
  }

  /** From s to s' nothing was detached for teardown, and what was torn down had been detached in s. */
  ghost predicate OnlyDetachedGo(s: Sys, s': Sys) {
    && (forall vm :: DetachedIn(s', vm) ==> DetachedIn(s, vm))
    && (forall vm :: vm in s'.torn ==> vm in s.torn || DetachedIn(s, vm))
  }

  lemma WorkerAfterStop(s: Sys, i: nat, a: WorkerAct)
    requires s.pool.shuttingDown && WorkersInv(s) && WorkerEnabled(s, i, a)
    ensures var s' := WorkerApply(s, i, a);
      && |s'.tasks| == |s.tasks| && (forall j :: 0 <= j < |s.tasks| && j != i ==> s'.tasks[j] == s.tasks[j])
      && (Detached(s'.tasks[i].pc).Some? ==> Detached(s'.tasks[i].pc) == Detached(s.tasks[i].pc))
      && (s'.torn == s.torn || (Detached(s.tasks[i].pc).Some? && s'.torn == s.torn + [Detached(s.tasks[i].pc).value]))
  {
    hide WorkersInv, WorkerInv, SlotsInv, AllGone, Busy, ActivateWorker, DetachWorker, ClearWorker, MarkWarming, MarkWarmError;
  }

  /** No other goroutine moves a worker's or tears a VM down. */
  predicate SameWorkers(s: Sys, s': Sys) {
    s'.torn == s.torn && |s'.tasks| == |s.tasks| && forall j :: 0 <= j < |s.tasks| ==> s'.tasks[j].pc == s.tasks[j].pc
  }

  lemma SlotKeepsWorkers(s: Sys, i: nat, k: nat, a: SlotAct)
    requires SlotEnabled(s, i, k, a)
    ensures SameWorkers(s, SlotApply(s, i, k, a))
  {
    hide CanResume, ClaimResume, FinishSlotJob, RecycleFreeingSlot, JudgeSlot, ClaimJob, CancelContext;
  }

  lemma PassKeepsWorkers(s: Sys, j: nat, a: PassAct)
    requires PassEnabled(s, j, a)
    ensures SameWorkers(s, PassApply(s, j, a))
  {
    hide WarnSlot, MayWarn, RequestBusyRecycle, Located, SameBinding, Decide;
  }

  lemma OthersKeepWorkers(s: Sys, a: Act)
    requires Enabled(s, a) && !a.WorkerStep?
    ensures SameWorkers(s, Apply(s, a))
  {
    match a {
      case PassStep(j, p) =>
        hide PassApply, PassEnabled, SameWorkers;
        PassKeepsWorkers(s, j, p);
      case SlotStep(i, k, x) =>
        hide SlotApply, SlotEnabled, SameWorkers;
        SlotKeepsWorkers(s, i, k, x);
      case _ =>
        hide PoolSections.Enqueue, PoolSections.Reconfigure, PoolSections.CancelRun, Shutdown, RequestRecycle, BusyCandidates;
    }
  }

  lemma ActAfterStop(s: Sys, a: Act)
    requires s.pool.shuttingDown && WorkersInv(s) && Enabled(s, a)
    ensures OnlyDetachedGo(s, Apply(s, a))
  {
    var s' := Apply(s, a);
    hide WorkersInv, Detached;
    if a.WorkerStep? {
      WorkerAfterStop(s, a.i, a.worker);
      hide WorkerApply, WorkerEnabled;
      forall vm | DetachedIn(s', vm)
        ensures DetachedIn(s, vm)
      {
        var j :| 0 <= j < |s'.tasks| && Detached(s'.tasks[j].pc) == Some(vm);
        assert Detached(s.tasks[j].pc) == Some(vm);
      }
    } else {
      OthersKeepWorkers(s, a);
      hide Apply, Enabled;
      assert forall j :: 0 <= j < |s'.tasks| ==> Detached(s'.tasks[j].pc) == Detached(s.tasks[j].pc);
    }
  }

  lemma {:induction false} OnlyDetachedGoByThen(run: seq<Sys>, acts: seq<Act>, n: nat, m: nat)
    requires IsRun(run, acts) && n <= m < |run| && run[n].pool.shuttingDown
    ensures OnlyDetachedGo(run[n], run[m]) && run[m].pool.shuttingDown
  {
    hide Init, Enabled, Apply, DetachedIn;
    if n < m {
      OnlyDetachedGoByThen(run, acts, n, m - 1);
      Step(run, acts, m - 1);
      Reachable(run, acts, m - 1);
      ShutdownIsFinal(run, acts, m - 1);
      hide IsRun;
      ActAfterStop(run[m - 1], acts[m - 1]);
    }
  }

  /** A VM that is attached is neither torn down nor detached for it. */
  lemma AttachedIsKept(s: Sys, i: nat)
    requires PoolInv(s) && i < |s.pool.states| && s.pool.states[i].vm.Some?
    ensures s.pool.states[i].vm.value !in s.torn && !DetachedIn(s, s.pool.states[i].vm.value)
  {
    var vm := s.pool.states[i].vm.value;
    assert WorkerInv(s.pool, s.ctxDone, s.pool.states[i], s.tasks[i]);
    hide SlotsInv, AllGone, Busy, NoSleeper;
    assert Owned(s, i) == Some(vm);
    forall j | 0 <= j < |s.tasks|
      ensures Detached(s.tasks[j].pc) != Some(vm)
    {
      assert Detached(s.tasks[j].pc).Some? ==> Owned(s, j) == Detached(s.tasks[j].pc);
    }
  }

  /**
   A stop tears nothing down but what was detached before it: of a state in which the pool is shutting down
   and any later one, a VM torn down in between had been detached for teardown by its worker, and a VM that
   was attached is not torn down.
   */
  lemma StopSparesAttachedVms(run: seq<Sys>, acts: seq<Act>, n: nat, m: nat)
    requires IsRun(run, acts) && n <= m < |run| && run[n].pool.shuttingDown
    ensures forall vm :: vm in run[m].torn ==> vm in run[n].torn || DetachedIn(run[n], vm)
    ensures forall i :: 0 <= i < |run[n].pool.states| && run[n].pool.states[i].vm.Some? ==>
              run[n].pool.states[i].vm.value !in run[m].torn
  {
    Reachable(run, acts, n);
    OnlyDetachedGoByThen(run, acts, n, m);
    hide IsRun, PoolInv, DetachedIn;
    forall i | 0 <= i < |run[n].pool.states| && run[n].pool.states[i].vm.Some?
      ensures run[n].pool.states[i].vm.value !in run[m].torn
    {
      AttachedIsKept(run[n], i);
    }
  }
}
