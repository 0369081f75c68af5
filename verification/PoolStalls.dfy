/** A VM whose guest went silent is recycled, not reused. */
module PoolStalls {
  import opened Wrappers
  import opened PoolSections
  import opened PoolRuns
  import opened PoolWorkers
  import opened PoolEffects
  import opened PoolSafety
  import H = HostDrain

  /** The slot goroutine has an error in hand for which it recycles its VM before it takes a job. */
  predicate Condemns(pc: SlotPc) {
    || (pc.Finished? && pc.err == Some(DrainStalled)) || (pc.Stalled? && pc.err == Some(DrainStalled))
    || (pc.Resumed? && pc.err.Some? && pc.err != Some(JobTerminal) && pc.err != Some(Canceled))
  }

  predicate CondemnedAt(s: Sys, i: nat, k: nat) {
    i < |s.tasks| && k < |s.tasks[i].slots| && Condemns(s.tasks[i].slots[k])
  }

  lemma OwnTurnCondemns(s: Sys, i: nat, k: nat, a: SlotAct)
    requires WorkersInv(s) && SlotEnabled(s, i, k, a) && CondemnedAt(s, i, k) && s.pool.states[i].vm.Some?
    ensures var s' := SlotApply(s, i, k, a);
      i < |s'.pool.states| && (s'.pool.states[i].recycle || CondemnedAt(s', i, k))
  {
    SlotAt(s, i, k);
    hide WorkersInv, SlotInv;
    if !a.SFinish? { FreeingFrame(s.pool, i, k, ServedVm(s.tasks[i].pc).value, s.tasks[i].slots[k].err, s.now); }
    hide RecycleFreeingSlot, FinishSlotJob;
  }

  lemma WorkerTurnKeepsSlots(s: Sys, i: nat, j: nat, a: WorkerAct)
    requires WorkerEnabled(s, j, a) && i < |s.tasks| && (i == j ==> !a.WSpawn? && !a.WClear?)
    ensures var s' := WorkerApply(s, j, a); |s'.tasks| == |s.tasks| && s'.tasks[i].slots == s.tasks[i].slots
  {
    hide Busy, MarkWarming, MarkWarmError, ActivateWorker, DetachWorker, ClearWorker, JudgeWorker;
  }

  /** A worker whose slot goroutines have not all returned neither starts new ones nor ends. */
  lemma CondemnedIsServed(s: Sys, i: nat, k: nat, a: WorkerAct)
    requires WorkersInv(s) && WorkerEnabled(s, i, a) && CondemnedAt(s, i, k)
    ensures !a.WSpawn? && !a.WClear?
  {
    assert WorkerInv(s.pool, s.ctxDone, s.pool.states[i], s.tasks[i]);
    hide WorkersInv, SlotsInv, Busy, OnlyAdopted;
  }

  lemma WorkerTurnCondemns(s: Sys, i: nat, k: nat, j: nat, a: WorkerAct)
    requires WorkersInv(s) && WorkerEnabled(s, j, a) && CondemnedAt(s, i, k)
    ensures CondemnedAt(WorkerApply(s, j, a), i, k)
  {
    if i == j { CondemnedIsServed(s, i, k, a); }
    WorkerTurnKeepsSlots(s, i, j, a);
    hide WorkersInv, WorkerApply, WorkerEnabled, Condemns;
  }

  lemma OtherSlotCondemns(s: Sys, i: nat, k: nat, j: nat, m: nat, a: SlotAct)
    requires SlotEnabled(s, j, m, a) && (i, k) != (j, m) && CondemnedAt(s, i, k)
    ensures CondemnedAt(SlotApply(s, j, m, a), i, k)
  {
    hide Condemns, CanResume, ClaimResume, FinishSlotJob, RecycleFreeingSlot, JudgeSlot, ClaimJob, CancelContext;
  }

  lemma OtherTurnCondemns(s: Sys, i: nat, k: nat, a: Act)
    requires Enabled(s, a) && !a.WorkerStep? && !(a.SlotStep? && a.i == i && a.k == k) && CondemnedAt(s, i, k)
    ensures CondemnedAt(Apply(s, a), i, k)
  {
    if a.SlotStep? {
      OtherSlotCondemns(s, i, k, a.i, a.k, a.slot);
      hide SlotApply, SlotEnabled, Condemns;
    } else {
      hide Condemns, CancelContext, WarnSlot, MayWarn, RequestBusyRecycle, Decide, BusyCandidates, CancelRun, RequestRecycle;
    }
  }

  lemma CondemnedStep(run: seq<Sys>, acts: seq<Act>, n: nat, i: nat, k: nat)
    requires IsRun(run, acts) && n < |acts| && CondemnedAt(run[n], i, k)
    requires i < |run[n].pool.states| && run[n].pool.states[i].vm.Some?
    ensures i < |run[n + 1].pool.states|
    ensures run[n + 1].pool.states[i].vm == run[n].pool.states[i].vm ==>
              run[n + 1].pool.states[i].recycle || CondemnedAt(run[n + 1], i, k)
  {
    EffectOfStep(run, acts, n);
    Step(run, acts, n);
    var s, a := run[n], acts[n];
    hide IsRun, WorkersInv, CondemnedAt, EffectAt, QueueMoves;
    if a.WorkerStep? {
      WorkerTurnCondemns(s, i, k, a.i, a.worker);
    } else if a.SlotStep? && a.i == i && a.k == k {
      OwnTurnCondemns(s, i, k, a.slot);
    } else {
      OtherTurnCondemns(s, i, k, a);
    }
  }

  /** Until its VM is marked, the goroutine stays with that error, and so takes no job. */
  lemma {:induction false} CondemnedUntilMarked(run: seq<Sys>, acts: seq<Act>, n: nat, m: nat, i: nat, k: nat)
    requires IsRun(run, acts) && n <= m < |run| && KeepsItsVm(run, n, m, i) && run[n].pool.states[i].vm.Some?
    requires CondemnedAt(run[n], i, k)
    ensures run[m].pool.states[i].recycle || CondemnedAt(run[m], i, k)
  {
    hide Init, Enabled, Apply, CondemnedAt;
    if n < m {
      CondemnedUntilMarked(run, acts, n, m - 1, i, k);
      if run[m - 1].pool.states[i].recycle {
        RecycleIsSticky(run, acts, m - 1, i);
      } else {
        CondemnedStep(run, acts, m - 1, i, k);
      }
    }
  }

  /**
   A drain that stalled costs its VM: when RunJob returns what the drain of a job comes to, and the drain had
   stalled, then at any later time at which the VM is still on its worker it is marked for a recycle, or the
   slot's goroutine has not come to it yet; it takes no other job before.
   */
  lemma StalledDrainRecyclesItsVm(run: seq<Sys>, acts: seq<Act>, n: nat, m: nat, i: nat, k: nat,
                                  drain: H.JobScript, err: Option<Err>)
    requires IsRun(run, acts) && n < |acts| && acts[n] == SlotStep(i, k, SJobReturns(err))
    requires H.Reported(drain, 0, err) && H.Drained(drain, 0).end == Some(H.Stalled)
    requires n < m < |run| && KeepsItsVm(run, n + 1, m, i) && run[n + 1].pool.states[i].vm.Some?
    ensures run[m].pool.states[i].recycle || CondemnedAt(run[m], i, k)
  {
    Step(run, acts, n);
    hide IsRun, H.Drained;
    assert err == Some(DrainStalled);
    CondemnedUntilMarked(run, acts, n + 1, m, i, k);
  }

  /** So does a resume that neither came to the job's end nor was detached. */
  lemma FailedResumeRecyclesItsVm(run: seq<Sys>, acts: seq<Act>, n: nat, m: nat, i: nat, k: nat, err: Err)
    requires IsRun(run, acts) && n < |acts| && acts[n] == SlotStep(i, k, SResumeReturns(Some(err)))
    requires err != JobTerminal && err != Canceled
    requires n < m < |run| && KeepsItsVm(run, n + 1, m, i) && run[n + 1].pool.states[i].vm.Some?
    ensures run[m].pool.states[i].recycle || CondemnedAt(run[m], i, k)
  {
    Step(run, acts, n);
    hide IsRun;
    CondemnedUntilMarked(run, acts, n + 1, m, i, k);
  }
}
