/** The idle clock: an attached VM that is not marked is on it exactly while all its slots are free. */
module PoolIdle {
  import opened Wrappers
  import opened PoolSections
  import opened PoolRuns
  import opened PoolWorkers
  import opened PoolSafety

  predicate ClockOk(w: WorkerState) {
    w.vm.Some? && !w.recycle ==> (w.idleSince == 0 <==> Busy(w))
  }

  predicate ClocksOk(p: PoolData) {
    forall i :: 0 <= i < |p.states| ==> ClockOk(p.states[i])
  }

  predicate IdleInv(s: Sys) {
    0 < s.now && ClocksOk(s.pool)
  }

  lemma OneClock(p: PoolData, q: PoolData, i: nat)
    requires ClocksOk(p) && i < |p.states| && |q.states| == |p.states| && ClockOk(q.states[i])
    requires forall j :: 0 <= j < |p.states| && j != i ==> q.states[j] == p.states[j]
    ensures ClocksOk(q)
  {
    hide ClockOk;
  }

  lemma SameFlags(w: WorkerState, w': WorkerState)
    requires |w'.slots| == |w.slots| && forall k :: 0 <= k < |w.slots| ==> w'.slots[k].busy == w.slots[k].busy
    ensures Busy(w') == Busy(w)
  {
  }

  lemma ClaimClock(p: PoolData, i: nat, k: nat, now: int)
    requires ClocksOk(p) && i < |p.states| && k < |p.states[i].slots| && |p.queue| > 0
    ensures ClocksOk(ClaimJob(p, i, k, now))
  {
    assert ClaimJob(p, i, k, now).states[i].slots[k].busy;
    OneClock(p, ClaimJob(p, i, k, now), i);
  }

  lemma FinishClock(p: PoolData, i: nat, k: int, vm: VmName, err: Option<Err>, now: int)
    requires ClocksOk(p) && i < |p.states| && now > 0
    ensures ClocksOk(FinishSlotJob(p, i, k, vm, err, now))
  {
    var q := FinishSlotJob(p, i, k, vm, err, now);
    var w, w' := p.states[i], q.states[i];
    assert ClockOk(w);
    if q != p && Busy(w') {
      var m :| 0 <= m < |w'.slots| && w'.slots[m].busy;
      assert w.slots[m].busy;
    }
    OneClock(p, q, i);
  }

  lemma RecycleClock(p: PoolData, i: nat, k: int, vm: VmName, err: Option<Err>)
    requires ClocksOk(p) && i < |p.states|
    ensures ClocksOk(RecycleFreeingSlot(p, i, k, vm, err))
  {
    OneClock(p, RecycleFreeingSlot(p, i, k, vm, err), i);
  }

  lemma CancelClock(p: PoolData, i: nat, k: nat, cause: Cause)
    requires ClocksOk(p) && i < |p.states| && k < |p.states[i].slots|
    ensures ClocksOk(CancelSlot(p, i, k, cause))
  {
    OneClock(p, CancelSlot(p, i, k, cause), i);
  }

  /** A cancel function or a warning mark says nothing about being busy. */
  lemma MarkClock(p: PoolData, i: nat, k: nat, slot: SlotState)
    requires ClocksOk(p) && i < |p.states| && k < |p.states[i].slots| && slot.busy == p.states[i].slots[k].busy
    ensures ClocksOk(p.SetSlot(i, k, slot))
  {
    assert ClockOk(p.states[i]);
    SameFlags(p.states[i], p.SetSlot(i, k, slot).states[i]);
    OneClock(p, p.SetSlot(i, k, slot), i);
  }

  lemma ResetClock(s: Sys, i: nat, a: WorkerAct)
    requires WorkersInv(s) && IdleInv(s) && WorkerEnabled(s, i, a) && Resets(a)
    ensures IdleInv(WorkerApply(s, i, a))
  {
    hide SlotsInv, NoSleeper, AllGone;
    assert WorkerInv(s.pool, s.ctxDone, s.pool.states[i], s.tasks[i]);
    hide WorkersInv;
    ResetResult(s, i, a);
    OneClock(s.pool, WorkerApply(s, i, a).pool, i);
  }

  lemma DetachClock(s: Sys, i: nat)
    requires IdleInv(s) && WorkerEnabled(s, i, WPoll)
    requires JudgeWorker(s.pool, i, s.tasks[i].pc.vm, s.ctxDone).DetachNow?
    ensures IdleInv(WorkerApply(s, i, WPoll))
  {
    ResetReplaces(s.pool, i, s.pool.states[i].(vm := None, recycle := false, warming := true, idleSince := 0),
                  s.pool.options.jobsPerVM);
    OneClock(s.pool, WorkerApply(s, i, WPoll).pool, i);
  }

  lemma WorkerClock(s: Sys, i: nat, a: WorkerAct)
    requires WorkersInv(s) && IdleInv(s) && WorkerEnabled(s, i, a)
    ensures IdleInv(WorkerApply(s, i, a))
  {
    hide WorkersInv, ClockOk, JudgeWorker;
    if Resets(a) {
      hide IdleInv, WorkerApply;
      ResetClock(s, i, a);
    } else if a.WPoll? && JudgeWorker(s.pool, i, s.tasks[i].pc.vm, s.ctxDone).DetachNow? {
      hide IdleInv, WorkerApply;
      DetachClock(s, i);
    } else {
      assert WorkerApply(s, i, a).pool.states == s.pool.states;
    }
  }

  lemma SlotClock(s: Sys, i: nat, k: nat, a: SlotAct)
    requires IdleInv(s) && SlotEnabled(s, i, k, a)
    ensures IdleInv(SlotApply(s, i, k, a))
  {
    var vm := ServedVm(s.tasks[i].pc).value;
    hide ClocksOk, ClaimJob, FinishSlotJob, RecycleFreeingSlot;
    match a {
      case SClaimResume =>
        if CanResume(s.pool, i, k, vm, SlotCtxDone(s, i)) {
          MarkClock(s.pool, i, k, s.pool.states[i].slots[k].(jobCancel := true));
        }
      case SResumeReturns(_) => ClocksIgnoreCauses(s.pool, SlotApply(s, i, k, a).pool);
      case SResumeEnds =>
        FinishClock(s.pool, i, k, vm, s.tasks[i].slots[k].err, s.now);
        RecycleClock(s.pool, i, k, vm, s.tasks[i].slots[k].err);
      case SPoll =>
        if JudgeSlot(s.pool, i, k, vm, SlotCtxDone(s, i)).SlotClaim? { ClaimClock(s.pool, i, k, s.now); }
      case SJobReturns(_) => ClocksIgnoreCauses(s.pool, SlotApply(s, i, k, a).pool);
      case SFinish => FinishClock(s.pool, i, k, vm, s.tasks[i].slots[k].err, s.now);
      case SRecycle => RecycleClock(s.pool, i, k, vm, s.tasks[i].slots[k].err);
    }
  }

  lemma ClocksIgnoreCauses(p: PoolData, q: PoolData)
    requires ClocksOk(p) && q.states == p.states
    ensures ClocksOk(q)
  {
  }

  lemma PassClock(s: Sys, j: nat, a: PassAct)
    requires IdleInv(s) && PassEnabled(s, j, a)
    ensures IdleInv(PassApply(s, j, a))
  {
    hide ClocksOk;
    if a.PWarn? || a.PRequest? {
      var c := s.passes[j].candidates[s.passes[j].at];
      if a.PWarn? && MayWarn(s.pool, c) {
        MarkClock(s.pool, c.index, c.slotIndex, s.pool.states[c.index].slots[c.slotIndex].(reapWarnedAt := c.boundAt));
      }
      if a.PRequest? && Located(s.pool, c) { CancelClock(s.pool, c.index, c.slotIndex, RecycleCause); }
    }
  }

  lemma OuterClock(s: Sys, a: Act)
    requires IdleInv(s) && Enabled(s, a) && !a.WorkerStep? && !a.SlotStep? && !a.PassStep?
    ensures IdleInv(Apply(s, a))
  {
    var q := Apply(s, a).pool;
    if a.DoCancelRun? {
      match FindBusy(s.pool.states, a.jobID, 0) {
        case None =>
        case Some((i, k)) => CancelClock(s.pool, i, k, CancelRunCause);
      }
    } else if a.DoRequestRecycle? {
      OneClock(s.pool, q, a.i);
    } else {
      ClocksIgnoreCauses(s.pool, q);
    }
  }

  /**
   In every reachable state an attached VM that is not marked for recycling has its idle clock running
   exactly when none of its slots is busy, so its idle time is never counted through a job.
   */
  lemma {:induction false} IdleClockIsTruthful(run: seq<Sys>, acts: seq<Act>, n: nat)
    requires IsRun(run, acts) && n < |run|
    ensures IdleInv(run[n])
  {
    hide Enabled, Apply, ClocksOk;
    if n == 0 {
      assert IdleInv(run[0]) by { InitClocks(run[0]); }
    } else {
      IdleClockIsTruthful(run, acts, n - 1);
      Reachable(run, acts, n - 1);
      Step(run, acts, n - 1);
      hide IsRun, WorkersInv, OwnInv, FifoInv, IdleInv;
      ActClock(run[n - 1], acts[n - 1]);
    }
  }

  lemma InitClocks(s: Sys)
    requires Init(s)
    ensures IdleInv(s)
  {
  }

  lemma ActClock(s: Sys, a: Act)
    requires WorkersInv(s) && IdleInv(s) && Enabled(s, a)
    ensures IdleInv(Apply(s, a))
  {
    hide WorkersInv, IdleInv;
    if a.WorkerStep? { WorkerClock(s, a.i, a.worker); }
    else if a.SlotStep? { SlotClock(s, a.i, a.k, a.slot); }
    else if a.PassStep? { PassClock(s, a.j, a.pass); }
    else { OuterClock(s, a); }
  }
}
