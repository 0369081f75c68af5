/**
 Whole-run safety of the pool: who owns which VM, which jobs were dispatched, who may sleep, and
 what a recycle mark and a shutdown put an end to.
 */
module PoolSafety {
  import opened Wrappers
  import opened PoolSections
  import opened PoolRuns
  import opened PoolWorkers
  import opened PoolEffects

  // ----- VM ownership -----------------------------------------------------------------------

  /** The VM a worker owns, in its goroutine's hands or in its state. */
  function Owned(s: Sys, i: nat): Option<VmName>
    requires i < |s.tasks| && i < |s.pool.states|
  {
    if PcVm(s.tasks[i].pc).Some? then PcVm(s.tasks[i].pc) else s.pool.states[i].vm
  }

  predicate OwnInv(s: Sys) {
    && |s.tasks| == |s.pool.states|
    && (forall i :: 0 <= i < |s.tasks| && Owned(s, i).Some? ==> Owned(s, i).value in s.used && Owned(s, i).value !in s.torn)
    && (forall i, j :: 0 <= i < j < |s.tasks| && Owned(s, i).Some? ==> Owned(s, i) != Owned(s, j))
    && (forall n :: 0 <= n < |s.torn| ==> s.torn[n] in s.used)
    && (forall m, n :: 0 <= m < n < |s.torn| ==> s.torn[m] != s.torn[n])
  }

  /** What the changed worker owns afterwards: what it owned, nothing, or a VM just warmed. */
  lemma OwnedMoves(s: Sys, s': Sys, i: nat)
    requires SameSize(s, s') && i < |s.tasks| && EffectAt(s, s', i)
    requires WorkerInv(s.pool, s.ctxDone, s.pool.states[i], s.tasks[i])
    ensures || (s'.used == s.used && s'.torn == s.torn && (Owned(s', i) == Owned(s, i) || Owned(s', i) == None))
            || (s'.torn == s.torn && Owned(s', i).Some? && Owned(s', i).value !in s.used
                && s'.used == s.used + {Owned(s', i).value})
            || (s'.used == s.used && Owned(s, i).Some? && Owned(s', i) == None
                && s'.torn == s.torn + [Owned(s, i).value])
  {
    hide SlotsInv, AllGone, Busy;
  }

  lemma OwnedElsewhere(s: Sys, s': Sys, i: nat)
    requires SameSize(s, s') && EffectAt(s, s', i)
    ensures forall j :: 0 <= j < |s.tasks| && j != i ==> Owned(s', j) == Owned(s, j)
    ensures i >= |s.tasks| ==> i > |s.tasks| || (s'.used == s.used && s'.torn == s.torn)
  {
    forall j | 0 <= j < |s.tasks| && j != i
      ensures Owned(s', j) == Owned(s, j)
    {
      assert UnchangedAt(s, s', j);
    }
  }

  lemma OwnershipKept(s: Sys, s': Sys)
    requires WorkersInv(s) && OwnInv(s) && Effect(s, s')
    ensures OwnInv(s')
  {
    var i :| 0 <= i <= |s.tasks| && EffectAt(s, s', i);
    OwnedElsewhere(s, s', i);
    if i < |s.tasks| {
      assert WorkerInv(s.pool, s.ctxDone, s.pool.states[i], s.tasks[i]);
      hide WorkerInv, WorkersInv, Owned;
      OwnedMoves(s, s', i);
    }
    hide EffectAt, WorkersInv, Owned, QueueMoves;
  }

  // ----- first in, first out ----------------------------------------------------------------

  predicate FifoInv(s: Sys) {
    s.dispatched + s.pool.queue == s.accepted
  }

  /** A slot poll that claims a job. */
  predicate Claims(s: Sys, a: Act)
    requires Enabled(s, a)
  {
    && a.SlotStep? && a.slot.SPoll?
    && JudgeSlot(s.pool, a.i, a.k, ServedVm(s.tasks[a.i].pc).value, SlotCtxDone(s, a.i)).SlotClaim?
  }

  lemma FifoKept(s: Sys, s': Sys)
    requires FifoInv(s) && Effect(s, s')
    ensures FifoInv(s')
  {
    if s'.dispatched != s.dispatched {
      assert s.pool.queue == [s.pool.queue[0]] + s.pool.queue[1..];
    }
  }

  // ----- every reachable state --------------------------------------------------------------

  ghost predicate PoolInv(s: Sys) {
    WorkersInv(s) && OwnInv(s) && FifoInv(s)
  }

  /** Every state of every run satisfies the invariant. */
  lemma {:induction false} Reachable(run: seq<Sys>, acts: seq<Act>, n: nat)
    requires IsRun(run, acts) && n < |run|
    ensures PoolInv(run[n])
  {
    if n == 0 {
      WorkersStart(run[0]);
      assert forall i :: 0 <= i < |run[0].tasks| ==> Owned(run[0], i) == run[0].pool.states[i].vm;
    } else {
      Reachable(run, acts, n - 1);
      Step(run, acts, n - 1);
      WorkersKept(run[n - 1], acts[n - 1]);
      EveryEffect(run[n - 1], acts[n - 1]);
      OwnershipKept(run[n - 1], run[n]);
      FifoKept(run[n - 1], run[n]);
    }
  }

  /** The n-th act of a run was enabled and led to the next state. */
  lemma Step(run: seq<Sys>, acts: seq<Act>, n: nat)
    requires IsRun(run, acts) && n < |acts|
    ensures Enabled(run[n], acts[n]) && run[n + 1] == Apply(run[n], acts[n])
  {
  }

  lemma EffectOfStep(run: seq<Sys>, acts: seq<Act>, n: nat)
    requires IsRun(run, acts) && n < |acts|
    ensures PoolInv(run[n]) && Effect(run[n], run[n + 1])
  {
    Reachable(run, acts, n);
    Step(run, acts, n);
    EveryEffect(run[n], acts[n]);
  }

  // ----- main results -----------------------------------------------------------------------

  /** Job conservation: dispatched jobs followed by the queue are the accepted jobs in order. */
  lemma JobsConserved(run: seq<Sys>, acts: seq<Act>, n: nat)
    requires IsRun(run, acts) && n < |run|
    ensures run[n].dispatched + run[n].pool.queue == run[n].accepted
  {
    Reachable(run, acts, n);
  }

  /**
   Teardown safety: a VM about to be torn down was not torn down before, is on no other worker,
   is detached from its own, and every goroutine that served its slots has returned.
   */
  lemma TeardownIsSafe(run: seq<Sys>, acts: seq<Act>, n: nat, i: nat)
    requires IsRun(run, acts) && n < |run| && i < |run[n].tasks| && run[n].tasks[i].pc.TearingDown?
    ensures var s, vm := run[n], run[n].tasks[i].pc.vm;
              && vm !in s.torn
              && |s.tasks| == |s.pool.states|
              && (forall j :: 0 <= j < |s.tasks| ==> s.pool.states[j].vm != Some(vm))
              && (forall j :: 0 <= j < |s.tasks| && j != i ==> PcVm(s.tasks[j].pc) != Some(vm))
              && AllGone(s.tasks[i].slots)
  {
    Reachable(run, acts, n);
    var s := run[n];
    assert WorkerInv(s.pool, s.ctxDone, s.pool.states[i], s.tasks[i]);
    assert Owned(s, i) == Some(s.tasks[i].pc.vm);
    forall j | 0 <= j < |s.tasks| && j != i
      ensures s.pool.states[j].vm != Owned(s, i) && PcVm(s.tasks[j].pc) != Owned(s, i)
    {
      assert WorkerInv(s.pool, s.ctxDone, s.pool.states[j], s.tasks[j]);
      assert Owned(s, j) != Owned(s, i);
    }
  }

  /** No VM is torn down twice, and no two workers ever own the same VM. */
  lemma OwnershipIsExclusive(run: seq<Sys>, acts: seq<Act>, n: nat)
    requires IsRun(run, acts) && n < |run|
    ensures var s := run[n];
              && |s.tasks| == |s.pool.states|
              && (forall i, j :: 0 <= i < j < |s.tasks| && Owned(s, i).Some? ==> Owned(s, i) != Owned(s, j))
              && (forall i, j :: 0 <= i < j < |s.torn| ==> s.torn[i] != s.torn[j])
  {
    Reachable(run, acts, n);
  }

  /** A job inside RunJob keeps its VM attached and its slot busy under the job's own ids. */
  lemma RunningJobHoldsItsSlot(run: seq<Sys>, acts: seq<Act>, n: nat, i: nat, k: nat)
    requires IsRun(run, acts) && n < |run|
    requires i < |run[n].tasks| && k < |run[n].tasks[i].slots| && run[n].tasks[i].slots[k].Running?
    ensures var s, pc := run[n], run[n].tasks[i].slots[k];
              && i < |s.pool.states| && s.pool.states[i].vm.Some?
              && s.pool.states[i].vm == ServedVm(s.tasks[i].pc)
              && k < |s.pool.states[i].slots|
              && var slot := s.pool.states[i].slots[k];
                 && slot.busy && !slot.adopted && slot.bind == pc.bind
                 && slot.jobID == pc.job.jobID && slot.runID == pc.job.runID
  {
    Reachable(run, acts, n);
    var s := run[n];
    assert WorkerInv(s.pool, s.ctxDone, s.pool.states[i], s.tasks[i]);
    assert s.pool.states[i].vm.None? ==> DetachedSlotInv(s.pool, s.tasks[i].slots[k]) || AllGone(s.tasks[i].slots);
    assert SlotInv(s.pool, s.ctxDone, s.pool.states[i], s.pool.states[i].slots[k], s.tasks[i].slots[k]);
  }

  /**
   A VM only leaves its worker while none of its slot goroutines holds a freshly dispatched job:
   either the worker's wait detaches a marked VM for teardown, with no stop requested, or the
   worker lets go of it at shutdown after all its slot goroutines have returned.
   */
  lemma DetachIsSafe(run: seq<Sys>, acts: seq<Act>, n: nat, i: nat)
    requires IsRun(run, acts) && n < |acts| && i < |run[n].pool.states| && run[n].pool.states[i].vm.Some?
    requires i < |run[n + 1].pool.states| && run[n + 1].pool.states[i].vm != run[n].pool.states[i].vm
    ensures var s, s' := run[n], run[n + 1];
              && i < |s.tasks| && i < |s'.tasks|
              && (forall k :: 0 <= k < |s.tasks[i].slots| ==>
                    !s.tasks[i].slots[k].Running? && !s.tasks[i].slots[k].Finished?)
              && if s'.tasks[i].pc.Leaving?
                 then s.pool.states[i].recycle && !s.pool.shuttingDown && !s.ctxDone
                 else AllGone(s.tasks[i].slots) && (s.pool.shuttingDown || s.ctxDone)
  {
    EffectOfStep(run, acts, n);
    var s, s' := run[n], run[n + 1];
    var j :| 0 <= j <= |s.tasks| && EffectAt(s, s', j);
    assert i != j ==> UnchangedAt(s, s', i);
    var w, t := s.pool.states[i], s.tasks[i];
    assert WorkerInv(s.pool, s.ctxDone, w, t);
    if t.pc.Waiting? {
      forall k | 0 <= k < |t.slots|
        ensures !t.slots[k].Running? && !t.slots[k].Finished?
      {
        assert SlotInv(s.pool, s.ctxDone, w, w.slots[k], t.slots[k]);
      }
    }
  }

  /**
   No lost wake-up: whoever is still asleep on the condition variable would, if it looked again,
   go back to sleep. The second clause lets the worker's wait for its slots end.
   */
  lemma NoLostWakeup(run: seq<Sys>, acts: seq<Act>, n: nat, i: nat)
    requires IsRun(run, acts) && n < |run| && i < |run[n].tasks|
    ensures i < |run[n].pool.states|
    ensures var s, t := run[n], run[n].tasks[i];
              && (t.pc.Waiting? && !Awake(t.pc.slept, s.pool.wakes) ==>
                    JudgeWorker(s.pool, i, t.pc.vm, false) == WorkerSleep)
              && (forall k :: 0 <= k < |t.slots| && t.slots[k].Polling? && !Awake(t.slots[k].slept, s.pool.wakes) ==>
                    && ServedVm(t.pc).Some? && !t.pc.Joining?
                    && JudgeSlot(s.pool, i, k, ServedVm(t.pc).value, false) == SlotSleep)
  {
    Reachable(run, acts, n);
    var s, t := run[n], run[n].tasks[i];
    var w := s.pool.states[i];
    assert WorkerInv(s.pool, s.ctxDone, w, t) && SleepsPast(s.pool, t);
    forall k | 0 <= k < |t.slots| && t.slots[k].Polling? && !Awake(t.slots[k].slept, s.pool.wakes)
      ensures ServedVm(t.pc).Some? && !t.pc.Joining?
      ensures JudgeSlot(s.pool, i, k, ServedVm(t.pc).value, false) == SlotSleep
    {
      assert t.slots[k].slept == Some(s.pool.wakes);
      assert !AllGone(t.slots);
      assert w.vm.None? ==> DetachedSlotInv(s.pool, t.slots[k]);
      assert SlotInv(s.pool, s.ctxDone, w, w.slots[k], t.slots[k]);
    }
  }

  /** A recycle mark stays for as long as the VM is on its worker. */
  lemma RecycleIsSticky(run: seq<Sys>, acts: seq<Act>, n: nat, i: nat)
    requires IsRun(run, acts) && n < |acts|
    requires i < |run[n].pool.states| && run[n].pool.states[i].vm.Some? && run[n].pool.states[i].recycle
    ensures i < |run[n + 1].pool.states|
    ensures run[n + 1].pool.states[i].vm == run[n].pool.states[i].vm ==> run[n + 1].pool.states[i].recycle
  {
    EffectOfStep(run, acts, n);
    var s, s' := run[n], run[n + 1];
    var j :| 0 <= j <= |s.tasks| && EffectAt(s, s', j);
    assert i != j ==> UnchangedAt(s, s', i);
    assert WorkerInv(s.pool, s.ctxDone, s.pool.states[i], s.tasks[i]);
  }

  /** Worker i has the same VM in all states from n to m. */
  predicate KeepsItsVm(run: seq<Sys>, n: nat, m: nat, i: nat)
    requires n <= m < |run|
  {
    && i < |run[n].pool.states|
    && forall x :: n <= x <= m ==> i < |run[x].pool.states| && run[x].pool.states[i].vm == run[n].pool.states[i].vm
  }

  lemma {:induction false} MarkStays(run: seq<Sys>, acts: seq<Act>, n: nat, m: nat, i: nat)
    requires IsRun(run, acts) && n <= m < |run| && KeepsItsVm(run, n, m, i)
    requires run[n].pool.states[i].vm.Some? && run[n].pool.states[i].recycle
    ensures run[m].pool.states[i].recycle
  {
    hide Init, Enabled, Apply;
    if n < m {
      MarkStays(run, acts, n, m - 1, i);
      RecycleIsSticky(run, acts, m - 1, i);
    }
  }

  /** Once marked, a VM takes no job in any later act for as long as it is on its worker. */
  lemma MarkedVmIsDone(run: seq<Sys>, acts: seq<Act>, n: nat, m: nat, i: nat)
    requires IsRun(run, acts) && n <= m < |acts| && KeepsItsVm(run, n, m, i)
    requires run[n].pool.states[i].vm.Some? && run[n].pool.states[i].recycle
    ensures Enabled(run[m], acts[m])
    ensures Claims(run[m], acts[m]) ==> acts[m].i != i
  {
    Step(run, acts, m);
    MarkStays(run, acts, n, m, i);
    hide IsRun, Enabled;
  }

  /** Once the pool is shutting down it stays so; nothing is accepted, dispatched or detached for teardown. */
  lemma ShutdownIsFinal(run: seq<Sys>, acts: seq<Act>, n: nat)
    requires IsRun(run, acts) && n < |acts| && run[n].pool.shuttingDown
    ensures run[n + 1].pool.shuttingDown && SameSize(run[n], run[n + 1])
    ensures run[n + 1].accepted == run[n].accepted && run[n + 1].dispatched == run[n].dispatched
    ensures run[n + 1].pool.queue == run[n].pool.queue
    ensures forall i :: 0 <= i < |run[n].tasks| && run[n].pool.states[i].vm.Some? ==>
              run[n + 1].pool.states[i].vm == run[n].pool.states[i].vm || run[n].tasks[i].pc == Clearing(false)
  {
    EffectOfStep(run, acts, n);
    var s, s' := run[n], run[n + 1];
    var j :| 0 <= j <= |s.tasks| && EffectAt(s, s', j);
    forall i | 0 <= i < |s.tasks| && s.pool.states[i].vm.Some?
      ensures s'.pool.states[i].vm == s.pool.states[i].vm || s.tasks[i].pc == Clearing(false)
    {
      assert i != j ==> UnchangedAt(s, s', i);
      assert WorkerInv(s.pool, s.ctxDone, s.pool.states[i], s.tasks[i]);
    }
  }

  /** While a VM stays on its worker its slot vector keeps its length, whatever is reconfigured. */
  lemma SlotCountIsFixed(run: seq<Sys>, acts: seq<Act>, n: nat, i: nat)
    requires IsRun(run, acts) && n < |acts| && i < |run[n].pool.states| && run[n].pool.states[i].vm.Some?
    ensures i < |run[n + 1].pool.states|
    ensures run[n + 1].pool.states[i].vm == run[n].pool.states[i].vm ==>
              |run[n + 1].pool.states[i].slots| == |run[n].pool.states[i].slots|
  {
    EffectOfStep(run, acts, n);
    var s, s' := run[n], run[n + 1];
    var j :| 0 <= j <= |s.tasks| && EffectAt(s, s', j);
    assert i != j ==> UnchangedAt(s, s', i);
    assert WorkerInv(s.pool, s.ctxDone, s.pool.states[i], s.tasks[i]);
  }

  /**
   Every busy slot of a served VM has a goroutine that frees it once the job or the resume it waits for
   returns, except an adopted binding without an execution id. That the job does return is not said.
   */
  lemma RecyclingSlotIsServed(run: seq<Sys>, acts: seq<Act>, n: nat, i: nat, k: nat)
    requires IsRun(run, acts) && n < |run| && i < |run[n].tasks| && run[n].tasks[i].pc.Waiting?
    requires !run[n].pool.shuttingDown && !run[n].ctxDone
    requires i < |run[n].pool.states| && k < |run[n].pool.states[i].slots|
    requires var slot := run[n].pool.states[i].slots[k];
             slot.busy && (slot.adopted ==> slot.executionID != "")
    ensures k < |run[n].tasks[i].slots|
    ensures var pc := run[n].tasks[i].slots[k];
              pc.Fresh? || pc.Resuming? || pc.Resumed? || pc.Running? || pc.Finished?
  {
    Reachable(run, acts, n);
    var s := run[n];
    assert WorkerInv(s.pool, s.ctxDone, s.pool.states[i], s.tasks[i]);
    assert SlotInv(s.pool, s.ctxDone, s.pool.states[i], s.pool.states[i].slots[k], s.tasks[i].slots[k]);
  }
}
