/**
 What holds of each worker, its slots and their goroutines in every reachable state of the pool,
 and that every act keeps it.
 */
module PoolWorkers {
  import opened Wrappers
  import opened PoolSections
  import opened PoolRuns

  /** What the slot goroutine at `pc` relies on while its VM is attached as worker state w. */
  predicate SlotInv(p: PoolData, ctxDone: bool, w: WorkerState, slot: SlotState, pc: SlotPc) {
    && (slot.jobCancel ==> slot.busy)
    && match pc
       case Fresh => slot.busy ==> slot.adopted && !slot.jobCancel
       case Resuming(b) => if slot.busy then slot.adopted && slot.bind == b else w.recycle
       case Resumed(_) => if slot.busy then slot.adopted else w.recycle
       case Polling(slept) =>
         && (slot.busy ==> Unresumable(p, ctxDone, slot))
         && (slept == Some(p.wakes) ==>
               !p.shuttingDown && !w.recycle && (slot.busy || p.queue == []))
       case Running(job, b) =>
         && slot.busy && !slot.adopted && slot.bind == b
         && slot.jobID == job.jobID && slot.runID == job.runID
       case Finished(_) => slot.busy && !slot.adopted
       case Stalled(_) => !slot.busy
       case Gone =>
         && (p.shuttingDown || ctxDone || w.recycle)
         && (slot.busy ==> Unresumable(p, ctxDone, slot))
  }

  /** An adopted binding that its goroutine did not resume, and the only reasons for that. */
  predicate Unresumable(p: PoolData, ctxDone: bool, slot: SlotState) {
    slot.adopted && (slot.executionID == "" || p.shuttingDown || ctxDone)
  }

  /** After its VM was detached a slot goroutine may finish a resume but never holds a fresh job. */
  predicate DetachedSlotInv(p: PoolData, pc: SlotPc) {
    && !pc.Running? && !pc.Finished?
    && (pc.Polling? ==> pc.slept != Some(p.wakes))
  }

  predicate SlotsInv(p: PoolData, ctxDone: bool, w: WorkerState, pcs: seq<SlotPc>) {
    && |pcs| == |w.slots|
    && forall k :: 0 <= k < |pcs| ==> SlotInv(p, ctxDone, w, w.slots[k], pcs[k])
  }

  predicate NoSleeper(p: PoolData, pcs: seq<SlotPc>) {
    forall k :: 0 <= k < |pcs| && pcs[k].Polling? ==> pcs[k].slept != Some(p.wakes)
  }

  predicate CancelsBusy(w: WorkerState) {
    forall k :: 0 <= k < |w.slots| && w.slots[k].jobCancel ==> w.slots[k].busy
  }

  /** The slots are being left: either the VM is detached already, or the pool is stopping. */
  predicate LeavingInv(p: PoolData, ctxDone: bool, w: WorkerState, pcs: seq<SlotPc>, vm: VmName, recycle: bool) {
    if recycle then
      && Unattached(w)
      && forall k :: 0 <= k < |pcs| ==> DetachedSlotInv(p, pcs[k])
    else
      && w.vm == Some(vm) && (p.shuttingDown || ctxDone)
      && SlotsInv(p, ctxDone, w, pcs)
  }

  predicate WorkerInv(p: PoolData, ctxDone: bool, w: WorkerState, t: Task) {
    && CancelsBusy(w)
    && match t.pc
       case Claiming => t.slots == [] && !w.warming && if w.vm.Some? then OnlyAdopted(w) else Unattached(w)
       case MustWarm => t.slots == [] && Unattached(w)
       case Choosing => t.slots == [] && Unattached(w)
       case Warming(_) => t.slots == [] && Unattached(w)
       case WarmFailed(_) => t.slots == [] && Unattached(w)
       case Backoff => t.slots == [] && Unattached(w)
       case Activating(_, _) => t.slots == [] && Unattached(w)
       case Spawning(vm) => t.slots == [] && w.vm == Some(vm) && OnlyAdopted(w)
       case Waiting(vm, slept) =>
         && w.vm == Some(vm) && SlotsInv(p, ctxDone, w, t.slots)
         && (slept == Some(p.wakes) ==> !p.shuttingDown && !(w.recycle && !Busy(w)))
       case Leaving(vm, recycle) => LeavingInv(p, ctxDone, w, t.slots, vm, recycle)
       case Cancelled(vm, recycle) => LeavingInv(p, ctxDone, w, t.slots, vm, recycle)
       case Joining(vm, recycle) => LeavingInv(p, ctxDone, w, t.slots, vm, recycle) && NoSleeper(p, t.slots)
       case TearingDown(_) => AllGone(t.slots) && Unattached(w)
       case Clearing(again) =>
         AllGone(t.slots) && if again then Unattached(w) else Unattached(w) || p.shuttingDown || ctxDone
       case Exited => t.slots == [] && Unattached(w)
  }

  /** Nobody sleeps at a broadcast that has not happened yet. */
  predicate SleepsPast(p: PoolData, t: Task) {
    && (t.pc.Waiting? && t.pc.slept.Some? ==> t.pc.slept.value <= p.wakes)
    && forall k :: 0 <= k < |t.slots| && t.slots[k].Polling? && t.slots[k].slept.Some? ==>
         t.slots[k].slept.value <= p.wakes
  }

  predicate WorkersInv(s: Sys) {
    && |s.tasks| == |s.pool.states|
    && forall i :: 0 <= i < |s.tasks| ==>
         && WorkerInv(s.pool, s.ctxDone, s.pool.states[i], s.tasks[i])
         && SleepsPast(s.pool, s.tasks[i])
  }

  /** The pool moved on from p to q without touching this worker: stops stay, wakes only grow. */
  predicate Onward(p: PoolData, ctxDone: bool, q: PoolData, ctxDone': bool) {
    && (p.shuttingDown ==> q.shuttingDown) && (ctxDone ==> ctxDone')
    && p.wakes <= q.wakes
    && (q.wakes == p.wakes ==> q.shuttingDown == p.shuttingDown && (p.queue == [] ==> q.queue == []))
  }

  lemma UntouchedWorker(p: PoolData, ctxDone: bool, q: PoolData, ctxDone': bool, w: WorkerState, t: Task)
    requires Onward(p, ctxDone, q, ctxDone')
    requires WorkerInv(p, ctxDone, w, t) && SleepsPast(p, t)
    ensures WorkerInv(q, ctxDone', w, t) && SleepsPast(q, t)
  {
  }

  predicate SameBut(s: Sys, s': Sys, i: nat) {
    && |s'.pool.states| == |s.pool.states| && |s'.tasks| == |s.tasks|
    && forall j :: 0 <= j < |s.tasks| && j < |s.pool.states| && j != i ==>
         s'.pool.states[j] == s.pool.states[j] && s'.tasks[j] == s.tasks[j]
  }

  /** An act that changes at most worker i and its task keeps every other worker's invariant. */
  lemma OnlyWorker(s: Sys, s': Sys, i: nat)
    requires WorkersInv(s) && Onward(s.pool, s.ctxDone, s'.pool, s'.ctxDone)
    requires i < |s.tasks|
    requires SameBut(s, s', i)
    requires WorkerInv(s'.pool, s'.ctxDone, s'.pool.states[i], s'.tasks[i]) && SleepsPast(s'.pool, s'.tasks[i])
    ensures WorkersInv(s')
  {
    forall j | 0 <= j < |s'.tasks|
      ensures WorkerInv(s'.pool, s'.ctxDone, s'.pool.states[j], s'.tasks[j]) && SleepsPast(s'.pool, s'.tasks[j])
    {
      if j != i {
        UntouchedWorker(s.pool, s.ctxDone, s'.pool, s'.ctxDone, s.pool.states[j], s.tasks[j]);
      }
    }
  }

  /** An act that changes no worker keeps them all. */
  lemma NoWorker(s: Sys, s': Sys)
    requires WorkersInv(s) && Onward(s.pool, s.ctxDone, s'.pool, s'.ctxDone)
    requires s'.pool.states == s.pool.states && s'.tasks == s.tasks
    ensures WorkersInv(s')
  {
    forall j | 0 <= j < |s'.tasks|
      ensures WorkerInv(s'.pool, s'.ctxDone, s'.pool.states[j], s'.tasks[j]) && SleepsPast(s'.pool, s'.tasks[j])
    {
      UntouchedWorker(s.pool, s.ctxDone, s'.pool, s'.ctxDone, s.pool.states[j], s.tasks[j]);
    }
  }

  predicate Touched(s: Sys, i: nat)
    requires i < |s.tasks| && i < |s.pool.states|
  {
    WorkerInv(s.pool, s.ctxDone, s.pool.states[i], s.tasks[i]) && SleepsPast(s.pool, s.tasks[i])
  }

  lemma DetachPollKeeps(s: Sys, i: nat)
    requires WorkersInv(s) && WorkerEnabled(s, i, WPoll)
    requires i < |s.pool.states| && JudgeWorker(s.pool, i, s.tasks[i].pc.vm, s.ctxDone).DetachNow?
    ensures Touched(WorkerApply(s, i, WPoll), i) && SameBut(s, WorkerApply(s, i, WPoll), i)
    ensures Onward(s.pool, s.ctxDone, WorkerApply(s, i, WPoll).pool, WorkerApply(s, i, WPoll).ctxDone)
  {
    var w := s.pool.states[i];
    var t := s.tasks[i];
    assert WorkerInv(s.pool, s.ctxDone, w, t);
    var s' := WorkerApply(s, i, WPoll);
    assert s'.tasks[i].slots == t.slots;
    forall k | 0 <= k < |t.slots|
      ensures DetachedSlotInv(s'.pool, t.slots[k])
    {
      assert SlotInv(s.pool, s.ctxDone, w, w.slots[k], t.slots[k]);
    }
  }

  lemma StayPollKeeps(s: Sys, i: nat)
    requires WorkersInv(s) && WorkerEnabled(s, i, WPoll)
    requires i < |s.pool.states| && !JudgeWorker(s.pool, i, s.tasks[i].pc.vm, s.ctxDone).DetachNow?
    ensures Touched(WorkerApply(s, i, WPoll), i) && SameBut(s, WorkerApply(s, i, WPoll), i)
    ensures Onward(s.pool, s.ctxDone, WorkerApply(s, i, WPoll).pool, WorkerApply(s, i, WPoll).ctxDone)
  {
    assert WorkerInv(s.pool, s.ctxDone, s.pool.states[i], s.tasks[i]);
    hide SlotsInv, AllGone, DetachWorker;
  }

  lemma PollKeeps(s: Sys, i: nat)
    requires WorkersInv(s) && WorkerEnabled(s, i, WPoll)
    ensures Touched(WorkerApply(s, i, WPoll), i) && SameBut(s, WorkerApply(s, i, WPoll), i)
    ensures Onward(s.pool, s.ctxDone, WorkerApply(s, i, WPoll).pool, WorkerApply(s, i, WPoll).ctxDone)
  {
    hide WorkersInv, Touched, SameBut, Onward, JudgeWorker, WorkerApply;
    if JudgeWorker(s.pool, i, s.tasks[i].pc.vm, s.ctxDone).DetachNow? {
      DetachPollKeeps(s, i);
    } else {
      StayPollKeeps(s, i);
    }
  }

  lemma LeaveKeeps(s: Sys, i: nat, a: WorkerAct)
    requires WorkersInv(s) && WorkerEnabled(s, i, a)
    requires a.WCancelSlots? || a.WBroadcast? || a.WJoin?
    ensures Touched(WorkerApply(s, i, a), i) && SameBut(s, WorkerApply(s, i, a), i)
    ensures Onward(s.pool, s.ctxDone, WorkerApply(s, i, a).pool, WorkerApply(s, i, a).ctxDone)
  {
    assert WorkerInv(s.pool, s.ctxDone, s.pool.states[i], s.tasks[i]);
  }

  lemma SpawnKeeps(s: Sys, i: nat)
    requires WorkersInv(s) && WorkerEnabled(s, i, WSpawn)
    ensures Touched(WorkerApply(s, i, WSpawn), i) && SameBut(s, WorkerApply(s, i, WSpawn), i)
    ensures Onward(s.pool, s.ctxDone, WorkerApply(s, i, WSpawn).pool, WorkerApply(s, i, WSpawn).ctxDone)
  {
    assert WorkerInv(s.pool, s.ctxDone, s.pool.states[i], s.tasks[i]);
  }

  /** The acts that leave the pool's fields alone and only move the worker goroutine. */
  predicate OnlyMoves(a: WorkerAct) {
    a.WClaim? || a.WChoose? || a.WWarmed? || a.WWarmFails? || a.WRetry? || a.WGiveUp? || a.WTeardown?
  }

  lemma MoveKeeps(s: Sys, i: nat, a: WorkerAct)
    requires WorkersInv(s) && WorkerEnabled(s, i, a) && OnlyMoves(a)
    ensures Touched(WorkerApply(s, i, a), i)
    ensures WorkerApply(s, i, a).pool == s.pool && SameBut(s, WorkerApply(s, i, a), i)
  {
    assert WorkerInv(s.pool, s.ctxDone, s.pool.states[i], s.tasks[i]);
  }

  predicate Resets(a: WorkerAct) {
    a.WMarkWarming? || a.WMarkError? || a.WActivate? || a.WClear?
  }

  /** The worker state that a reset act leaves behind. */
  function AfterReset(s: Sys, i: nat, a: WorkerAct): (w: WorkerState)
    requires WorkerEnabled(s, i, a) && Resets(a)
  {
    var w := s.pool.states[i];
    var n := SlotCountOrDefault(s.pool.options.jobsPerVM);
    match a
    case WMarkWarming => WorkerState(None, 0, 0, true, false, EmptySlots(n), None)
    case WMarkError => WorkerState(w.vm, w.bornAt, w.idleSince, false, false, EmptySlots(n), Some(s.tasks[i].pc.err))
    case WActivate =>
      WorkerState(Some(s.tasks[i].pc.vm), s.now, s.now, false, false,
                  EmptySlots(SlotCountOrDefault(s.tasks[i].pc.slotCount)), None)
    case _ =>
      WorkerState(None, 0, 0, false, false,
                  EmptySlots(if s.pool.options.jobsPerVM < 0 then 0 else s.pool.options.jobsPerVM), None)
  }

  /** p with worker i replaced, one more broadcast, and perhaps more contexts cancelled. */
  predicate Replaced(p: PoolData, q: PoolData, i: nat, w: WorkerState)
    requires i < |p.states|
  {
    q == p.(states := p.states[i := w], causes := q.causes, wakes := p.wakes + 1)
  }

  lemma ResetReplaces(p: PoolData, i: nat, w: WorkerState, n: int)
    requires i < |p.states|
    ensures Replaced(p, ResetSlotsTo(p.Set(i, w), i, n).Broadcast(), i,
                     w.(slots := EmptySlots(SlotCountOrDefault(n))))
  {
    assert p.states[i := w][i := w.(slots := EmptySlots(SlotCountOrDefault(n)))]
        == p.states[i := w.(slots := EmptySlots(SlotCountOrDefault(n)))];
  }

  lemma ResetResult(s: Sys, i: nat, a: WorkerAct)
    requires WorkerEnabled(s, i, a) && Resets(a)
    ensures var s' := WorkerApply(s, i, a);
              && Replaced(s.pool, s'.pool, i, AfterReset(s, i, a))
              && s'.tasks == s.tasks[i := s'.tasks[i]] && s'.ctxDone == s.ctxDone
  {
    var p, t := s.pool, s.tasks[i];
    var w := p.states[i];
    match a {
      case WMarkWarming =>
        ResetReplaces(p, i, w.(vm := None, bornAt := 0, idleSince := 0, warming := true,
                               recycle := false, lastErr := None), p.options.jobsPerVM);
      case WMarkError =>
        ResetReplaces(p, i, w.(lastErr := Some(t.pc.err), warming := false, recycle := false), p.options.jobsPerVM);
      case WActivate =>
        ResetReplaces(p, i, w.(vm := Some(t.pc.vm), bornAt := s.now, idleSince := s.now, warming := false,
                               recycle := false, lastErr := None), t.pc.slotCount);
      case WClear =>
    }
  }

  lemma ResetKeeps(s: Sys, i: nat, a: WorkerAct)
    requires WorkersInv(s) && WorkerEnabled(s, i, a) && Resets(a)
    ensures var s' := WorkerApply(s, i, a);
              && Touched(s', i) && SameBut(s, s', i)
              && Onward(s.pool, s.ctxDone, s'.pool, s'.ctxDone)
  {
    ResetResult(s, i, a);
    assert WorkerInv(s.pool, s.ctxDone, s.pool.states[i], s.tasks[i]);
    assert CancelsBusy(AfterReset(s, i, a)) && OnlyAdopted(AfterReset(s, i, a));
  }

  lemma WorkerStepKeeps(s: Sys, i: nat, a: WorkerAct)
    requires WorkersInv(s) && WorkerEnabled(s, i, a)
    ensures WorkersInv(WorkerApply(s, i, a))
  {
    if OnlyMoves(a) {
      MoveKeeps(s, i, a);
    } else if Resets(a) {
      ResetKeeps(s, i, a);
    } else {
      match a {
        case WPoll => PollKeeps(s, i);
        case WSpawn => SpawnKeeps(s, i);
        case _ => LeaveKeeps(s, i, a);
      }
    }
    OnlyWorker(s, WorkerApply(s, i, a), i);
  }

  // ----- slot goroutines --------------------------------------------------------------------

  /** One slot and its goroutine change; every other slot of the attached VM keeps its invariant. */
  lemma SlotChange(p: PoolData, q: PoolData, ctxDone: bool, w: WorkerState, w': WorkerState, t: Task, k: nat, pc: SlotPc)
    requires Onward(p, ctxDone, q, ctxDone) && SlotsInv(p, ctxDone, w, t.slots) && SleepsPast(p, t)
    requires k < |w.slots| == |w'.slots| && w'.slots == w.slots[k := w'.slots[k]]
    requires w.recycle ==> w'.recycle
    requires q.wakes == p.wakes ==> w'.recycle == w.recycle
    requires SlotInv(q, ctxDone, w', w'.slots[k], pc)
    ensures SlotsInv(q, ctxDone, w', t.slots[k := pc])
  {
    forall j | 0 <= j < |t.slots|
      ensures SlotInv(q, ctxDone, w', w'.slots[j], t.slots[k := pc][j])
    {
      assert SlotInv(p, ctxDone, w, w.slots[j], t.slots[j]);
    }
  }

  /** What a slot act must do to the attached worker w: change slot k alone, and wake on a mark. */
  predicate SlotEffect(s: Sys, s': Sys, i: nat, k: nat)
    requires i < |s.tasks| && i < |s.pool.states| && k < |s.tasks[i].slots|
  {
    && |s'.pool.states| == |s.pool.states| && |s'.tasks| == |s.tasks| && SameBut(s, s', i)
    && s'.ctxDone == s.ctxDone && Onward(s.pool, s.ctxDone, s'.pool, s'.ctxDone)
    && |s'.tasks[i].slots| == |s.tasks[i].slots|
    && s'.tasks[i] == s.tasks[i].(slots := s.tasks[i].slots[k := s'.tasks[i].slots[k]])
    && var w, w' := s.pool.states[i], s'.pool.states[i];
       && w'.vm == w.vm && |w'.slots| == |w.slots| && (w.recycle ==> w'.recycle)
       && (k < |w.slots| ==> w'.slots == w.slots[k := w'.slots[k]])
       && (w.vm.None? ==> w' == w)
       && (s'.pool.wakes == s.pool.wakes ==>
             w'.recycle == w.recycle && (k < |w.slots| ==> w'.slots[k].busy == w.slots[k].busy))
  }

  lemma SlotTouched(s: Sys, s': Sys, i: nat, k: nat)
    requires WorkersInv(s) && i < |s.tasks| && k < |s.tasks[i].slots|
    requires ServedVm(s.tasks[i].pc).Some? && SlotEffect(s, s', i, k)
    requires var pc := s'.tasks[i].slots[k];
             if s.pool.states[i].vm.Some?
             then k < |s.pool.states[i].slots| ==> SlotInv(s'.pool, s'.ctxDone, s'.pool.states[i], s'.pool.states[i].slots[k], pc)
             else DetachedSlotInv(s'.pool, pc)
    requires var pc := s'.tasks[i].slots[k];
             && (pc.Polling? && pc.slept.Some? ==> pc.slept.value <= s'.pool.wakes)
             && (s.tasks[i].pc.Joining? && pc.Polling? ==> pc.slept.None?)
    ensures Touched(s', i)
  {
    var w := s.pool.states[i];
    var w' := s'.pool.states[i];
    var t := s.tasks[i];
    var pc := s'.tasks[i].slots[k];
    assert WorkerInv(s.pool, s.ctxDone, w, t);
    if w.vm.Some? {
      SlotChange(s.pool, s'.pool, s.ctxDone, w, w', t, k, pc);
      assert forall j :: 0 <= j < |w'.slots| ==> SlotInv(s'.pool, s'.ctxDone, w', w'.slots[j], t.slots[k := pc][j]);
      if s'.pool.wakes == s.pool.wakes {
        assert forall j :: 0 <= j < |w.slots| ==> w'.slots[j].busy == w.slots[j].busy;
        if Busy(w) {
          var j :| 0 <= j < |w.slots| && w.slots[j].busy;
          assert w'.slots[j].busy;
        }
      }
    } else {
      assert forall j :: 0 <= j < |t.slots| && j != k ==> DetachedSlotInv(s.pool, t.slots[j]);
    }
  }

  /** The slot acts that leave the worker's slot vector alone or only install a cancel function. */
  lemma SlotKeeps(s: Sys, s': Sys, i: nat, k: nat)
    requires WorkersInv(s) && i < |s.tasks| && k < |s.tasks[i].slots|
    requires ServedVm(s.tasks[i].pc).Some? && SlotEffect(s, s', i, k)
    requires var pc := s'.tasks[i].slots[k];
             if s.pool.states[i].vm.Some?
             then k < |s.pool.states[i].slots| ==> SlotInv(s'.pool, s'.ctxDone, s'.pool.states[i], s'.pool.states[i].slots[k], pc)
             else DetachedSlotInv(s'.pool, pc)
    requires var pc := s'.tasks[i].slots[k];
             && (pc.Polling? && pc.slept.Some? ==> pc.slept.value <= s'.pool.wakes)
             && (s.tasks[i].pc.Joining? && pc.Polling? ==> pc.slept.None?)
    ensures WorkersInv(s')
  {
    hide WorkerInv, SlotInv, DetachedSlotInv;
    SlotTouched(s, s', i, k);
    OnlyWorker(s, s', i);
  }

  /** What holds of slot k at its goroutine's turn. */
  lemma SlotAt(s: Sys, i: nat, k: nat)
    requires WorkersInv(s) && i < |s.tasks| && k < |s.tasks[i].slots| && ServedVm(s.tasks[i].pc).Some?
    ensures i < |s.pool.states|
    ensures if s.pool.states[i].vm.Some?
            then k < |s.pool.states[i].slots| && SlotInv(s.pool, s.ctxDone, s.pool.states[i], s.pool.states[i].slots[k], s.tasks[i].slots[k])
                 && s.pool.states[i].vm == ServedVm(s.tasks[i].pc)
            else DetachedSlotInv(s.pool, s.tasks[i].slots[k])
    ensures s.tasks[i].pc.Joining? && s.pool.states[i].vm.Some? ==> s.pool.shuttingDown || s.ctxDone
  {
    assert WorkerInv(s.pool, s.ctxDone, s.pool.states[i], s.tasks[i]);
    hide SlotInv, WorkersInv;
  }

  lemma ResumeClaimKeeps(s: Sys, i: nat, k: nat)
    requires WorkersInv(s) && SlotEnabled(s, i, k, SClaimResume)
    ensures WorkersInv(SlotApply(s, i, k, SClaimResume))
  {
    SlotAt(s, i, k);
    hide WorkersInv;
    SlotKeeps(s, SlotApply(s, i, k, SClaimResume), i, k);
  }

  lemma ReturnKeeps(s: Sys, i: nat, k: nat, a: SlotAct)
    requires WorkersInv(s) && SlotEnabled(s, i, k, a) && (a.SResumeReturns? || a.SJobReturns?)
    ensures WorkersInv(SlotApply(s, i, k, a))
  {
    SlotAt(s, i, k);
    hide WorkersInv, CancelContext;
    SlotKeeps(s, SlotApply(s, i, k, a), i, k);
  }

  lemma PollClaimKeeps(s: Sys, i: nat, k: nat)
    requires WorkersInv(s) && SlotEnabled(s, i, k, SPoll)
    requires JudgeSlot(s.pool, i, k, ServedVm(s.tasks[i].pc).value, SlotCtxDone(s, i)).SlotClaim?
    ensures WorkersInv(SlotApply(s, i, k, SPoll))
  {
    SlotAt(s, i, k);
    hide WorkersInv;
    SlotKeeps(s, SlotApply(s, i, k, SPoll), i, k);
  }

  lemma PollWaitKeeps(s: Sys, i: nat, k: nat)
    requires WorkersInv(s) && SlotEnabled(s, i, k, SPoll)
    requires !JudgeSlot(s.pool, i, k, ServedVm(s.tasks[i].pc).value, SlotCtxDone(s, i)).SlotClaim?
    ensures WorkersInv(SlotApply(s, i, k, SPoll))
  {
    SlotAt(s, i, k);
    hide WorkersInv;
    SlotKeeps(s, SlotApply(s, i, k, SPoll), i, k);
  }

  lemma PollSlotKeeps(s: Sys, i: nat, k: nat)
    requires WorkersInv(s) && SlotEnabled(s, i, k, SPoll)
    ensures WorkersInv(SlotApply(s, i, k, SPoll))
  {
    assert i < |s.pool.states|;
    hide WorkersInv, SlotApply, JudgeSlot;
    if JudgeSlot(s.pool, i, k, ServedVm(s.tasks[i].pc).value, SlotCtxDone(s, i)).SlotClaim? {
      PollClaimKeeps(s, i, k);
    } else {
      PollWaitKeeps(s, i, k);
    }
  }

  /** Slot k of worker i was freed, and every sleeper woken. */
  predicate Freed(p: PoolData, q: PoolData, i: nat, k: nat)
    requires i < |p.states| && k < |p.states[i].slots|
  {
    && |q.states| == |p.states| && |q.states[i].slots| == |p.states[i].slots|
    && q == p.(states := p.states[i := q.states[i]], wakes := p.wakes + 1)
    && q.states[i].vm == p.states[i].vm && q.states[i].slots == p.states[i].slots[k := q.states[i].slots[k]]
    && (p.states[i].recycle ==> q.states[i].recycle)
    && !q.states[i].slots[k].busy && !q.states[i].slots[k].jobCancel
  }

  /** finishSlotJob and recycleWorkerFreeingSlot free the slot while the VM is attached, and do nothing after. */
  lemma FreeingFrame(p: PoolData, i: nat, k: nat, vm: VmName, err: Option<Err>, now: int)
    requires i < |p.states|
    ensures p.Holds(i, vm) && k < |p.states[i].slots| ==>
              && Freed(p, FinishSlotJob(p, i, k, vm, err, now), i, k)
              && FinishSlotJob(p, i, k, vm, err, now).states[i].recycle == p.states[i].recycle
    ensures p.Holds(i, vm) && k < |p.states[i].slots| ==>
              && Freed(p, RecycleFreeingSlot(p, i, k, vm, err), i, k)
              && RecycleFreeingSlot(p, i, k, vm, err).states[i].recycle
    ensures !(p.Holds(i, vm) && k < |p.states[i].slots|) ==>
              FinishSlotJob(p, i, k, vm, err, now) == p == RecycleFreeingSlot(p, i, k, vm, err)
  {
  }

  predicate Ends(a: SlotAct) {
    a.SResumeEnds? || a.SFinish? || a.SRecycle?
  }

  /** The ends of a job or a resume free the slot of an attached VM and move its goroutine on. */
  lemma EndResult(s: Sys, i: nat, k: nat, a: SlotAct)
    requires SlotEnabled(s, i, k, a) && Ends(a)
    ensures var s' := SlotApply(s, i, k, a);
              && s' == Move(s, i, k, s'.pool, s'.tasks[i].slots[k])
              && (s'.tasks[i].slots[k] == Polling(None) || s'.tasks[i].slots[k].Gone? || s'.tasks[i].slots[k].Stalled?)
              && var attached := s.pool.Holds(i, ServedVm(s.tasks[i].pc).value) && k < |s.pool.states[i].slots|;
                 if attached
                 then Freed(s.pool, s'.pool, i, k) && (s'.tasks[i].slots[k].Gone? ==> s'.pool.states[i].recycle)
                 else s'.pool == s.pool
  {
    FreeingFrame(s.pool, i, k, ServedVm(s.tasks[i].pc).value, s.tasks[i].slots[k].err, s.now);
    hide FinishSlotJob, RecycleFreeingSlot, Freed;
  }

  lemma FreedKeeps(s: Sys, s': Sys, i: nat, k: nat, pc: SlotPc)
    requires WorkersInv(s) && i < |s.tasks| && k < |s.tasks[i].slots| && ServedVm(s.tasks[i].pc).Some?
    requires s' == Move(s, i, k, s'.pool, pc)
    requires pc == Polling(None) || pc.Gone? || pc.Stalled?
    requires s.pool.states[i].vm.Some? && k < |s.pool.states[i].slots| && Freed(s.pool, s'.pool, i, k)
    requires pc.Gone? ==> s'.pool.states[i].recycle
    ensures WorkersInv(s')
  {
    SlotKeeps(s, s', i, k);
  }

  lemma DetachedKeeps(s: Sys, s': Sys, i: nat, k: nat, pc: SlotPc)
    requires WorkersInv(s) && i < |s.tasks| && k < |s.tasks[i].slots| && ServedVm(s.tasks[i].pc).Some?
    requires s' == Move(s, i, k, s.pool, pc)
    requires pc == Polling(None) || pc.Gone? || pc.Stalled?
    requires s.pool.states[i].vm.None?
    ensures WorkersInv(s')
  {
    SlotKeeps(s, s', i, k);
  }

  lemma EndSlotKeeps(s: Sys, i: nat, k: nat, a: SlotAct)
    requires WorkersInv(s) && SlotEnabled(s, i, k, a) && Ends(a)
    ensures WorkersInv(SlotApply(s, i, k, a))
  {
    var s' := SlotApply(s, i, k, a);
    EndResult(s, i, k, a);
    assert WorkerInv(s.pool, s.ctxDone, s.pool.states[i], s.tasks[i]);
    if s.pool.states[i].vm.Some? {
      FreedKeeps(s, s', i, k, s'.tasks[i].slots[k]);
    } else {
      DetachedKeeps(s, s', i, k, s'.tasks[i].slots[k]);
    }
  }

  lemma SlotStepKeeps(s: Sys, i: nat, k: nat, a: SlotAct)
    requires WorkersInv(s) && SlotEnabled(s, i, k, a)
    ensures WorkersInv(SlotApply(s, i, k, a))
  {
    if Ends(a) {
      EndSlotKeeps(s, i, k, a);
    } else if a.SPoll? {
      PollSlotKeeps(s, i, k);
    } else if a.SClaimResume? {
      ResumeClaimKeeps(s, i, k);
    } else {
      ReturnKeeps(s, i, k, a);
    }
  }

  // ----- acts from outside the worker -------------------------------------------------------

  /** A mark keeps a slot's binding, dropping at most its cancel function, or frees an adopted one. */
  predicate MarkedSlot(before: SlotState, after: SlotState) {
    || after == before || after == before.(jobCancel := false)
    || (before.adopted && !before.jobCancel && after == EmptySlot())
  }

  predicate MarkedWorker(w: WorkerState, w': WorkerState) {
    && w'.vm == w.vm && w'.warming == w.warming && w'.recycle && |w'.slots| == |w.slots|
    && forall k :: 0 <= k < |w.slots| ==> MarkedSlot(w.slots[k], w'.slots[k])
  }

  lemma MarkKeeps(s: Sys, s': Sys, i: nat)
    requires WorkersInv(s) && i < |s.tasks| && s.pool.states[i].vm.Some?
    requires s'.tasks == s.tasks && s'.ctxDone == s.ctxDone && |s'.pool.states| == |s.pool.states|
    requires s'.pool == s.pool.(states := s.pool.states[i := s'.pool.states[i]],
                                causes := s'.pool.causes, wakes := s.pool.wakes + 1)
    requires MarkedWorker(s.pool.states[i], s'.pool.states[i])
    ensures WorkersInv(s')
  {
    var w, w' := s.pool.states[i], s'.pool.states[i];
    var t := s.tasks[i];
    assert WorkerInv(s.pool, s.ctxDone, w, t);
    assert forall k :: 0 <= k < |w.slots| ==> MarkedSlot(w.slots[k], w'.slots[k]);
    if |t.slots| == |w.slots| && SlotsInv(s.pool, s.ctxDone, w, t.slots) {
      forall k | 0 <= k < |t.slots|
        ensures SlotInv(s'.pool, s'.ctxDone, w', w'.slots[k], t.slots[k])
      {
        assert SlotInv(s.pool, s.ctxDone, w, w.slots[k], t.slots[k]);
      }
    }
    OnlyWorker(s, s', i);
  }

  lemma CancelSlotKeeps(s: Sys, s': Sys, i: nat, k: nat, cause: Cause)
    requires WorkersInv(s) && i < |s.tasks| && s.pool.states[i].vm.Some? && k < |s.pool.states[i].slots|
    requires s'.tasks == s.tasks && s'.ctxDone == s.ctxDone && s'.pool == CancelSlot(s.pool, i, k, cause)
    ensures WorkersInv(s')
  {
    MarkKeeps(s, s', i);
  }

  lemma BusyIsAttached(s: Sys, i: nat, k: nat)
    requires WorkersInv(s) && i < |s.tasks| && k < |s.pool.states[i].slots| && s.pool.states[i].slots[k].busy
    ensures s.pool.states[i].vm.Some? || s.tasks[i].pc.Clearing?
  {
    assert WorkerInv(s.pool, s.ctxDone, s.pool.states[i], s.tasks[i]);
    assert Busy(s.pool.states[i]);
  }

  /** A worker that is being cleared at shutdown relies on nothing but its stopped pool. */
  lemma ClearingKeeps(s: Sys, s': Sys, i: nat, k: nat, cause: Cause)
    requires WorkersInv(s) && i < |s.tasks| && s.tasks[i].pc.Clearing?
    requires k < |s.pool.states[i].slots| && s.pool.states[i].slots[k].busy
    requires s'.tasks == s.tasks && s'.ctxDone == s.ctxDone && s'.pool == CancelSlot(s.pool, i, k, cause)
    ensures WorkersInv(s')
  {
    assert WorkerInv(s.pool, s.ctxDone, s.pool.states[i], s.tasks[i]);
    assert Busy(s.pool.states[i]);
    assert forall j :: 0 <= j < |s.pool.states[i].slots| ==>
             MarkedSlot(s.pool.states[i].slots[j], s'.pool.states[i].slots[j]);
    OnlyWorker(s, s', i);
  }

  lemma CancelRunKeeps(s: Sys, jobID: int)
    requires WorkersInv(s)
    ensures WorkersInv(Apply(s, DoCancelRun(jobID)))
  {
    var s' := Apply(s, DoCancelRun(jobID));
    match FindBusy(s.pool.states, jobID, 0) {
      case None => NoWorker(s, s');
      case Some((i, k)) =>
        BusyIsAttached(s, i, k);
        if s.pool.states[i].vm.Some? {
          CancelSlotKeeps(s, s', i, k, CancelRunCause);
        } else {
          ClearingKeeps(s, s', i, k, CancelRunCause);
        }
    }
  }

  lemma RequestRecycleKeeps(s: Sys, i: nat, vm: VmName, err: Option<Err>)
    requires WorkersInv(s) && i < |s.pool.states|
    ensures WorkersInv(Apply(s, DoRequestRecycle(i, vm, err)))
  {
    var s' := Apply(s, DoRequestRecycle(i, vm, err));
    if s'.pool == s.pool {
      NoWorker(s, s');
    } else {
      MarkKeeps(s, s', i);
    }
  }

  lemma WarnKeeps(s: Sys, s': Sys, c: BusyCandidate)
    requires WorkersInv(s) && MayWarn(s.pool, c)
    requires s'.tasks == s.tasks && s'.ctxDone == s.ctxDone && s'.pool == WarnSlot(s.pool, c)
    ensures WorkersInv(s')
  {
    var i := c.index;
    var w, w' := s.pool.states[i], s'.pool.states[i];
    var t := s.tasks[i];
    assert WorkerInv(s.pool, s.ctxDone, w, t);
    assert forall k :: 0 <= k < |w.slots| ==>
             w'.slots[k] == w.slots[k] || w'.slots[k] == w.slots[k].(reapWarnedAt := c.boundAt);
    if |t.slots| == |w.slots| && SlotsInv(s.pool, s.ctxDone, w, t.slots) {
      forall k | 0 <= k < |t.slots|
        ensures SlotInv(s'.pool, s'.ctxDone, w', w'.slots[k], t.slots[k])
      {
        assert SlotInv(s.pool, s.ctxDone, w, w.slots[k], t.slots[k]);
      }
    }
    assert Busy(w) ==> Busy(w') by {
      if Busy(w) {
        var k :| 0 <= k < |w.slots| && w.slots[k].busy;
        assert w'.slots[k].busy;
      }
    }
    assert w.slots[c.slotIndex].busy;
    OnlyWorker(s, s', i);
  }

  lemma PassStepKeeps(s: Sys, j: nat, a: PassAct)
    requires WorkersInv(s) && PassEnabled(s, j, a)
    ensures WorkersInv(PassApply(s, j, a))
  {
    var s' := PassApply(s, j, a);
    if s'.pool == s.pool {
      NoWorker(s, s');
    } else {
      var c := s.passes[j].candidates[s.passes[j].at];
      if a.PWarn? {
        WarnKeeps(s, s', c);
      } else {
        CancelSlotKeeps(s, s', c.index, c.slotIndex, RecycleCause);
      }
    }
  }

  /** Every act keeps every worker's invariant. */
  lemma WorkersKept(s: Sys, a: Act)
    requires WorkersInv(s) && Enabled(s, a)
    ensures WorkersInv(Apply(s, a))
  {
    match a {
      case WorkerStep(i, w) => WorkerStepKeeps(s, i, w);
      case SlotStep(i, k, x) => SlotStepKeeps(s, i, k, x);
      case PassStep(j, p) => PassStepKeeps(s, j, p);
      case DoCancelRun(jobID) => CancelRunKeeps(s, jobID);
      case DoRequestRecycle(i, vm, err) => RequestRecycleKeeps(s, i, vm, err);
      case _ => NoWorker(s, Apply(s, a));
    }
  }

  lemma WorkersStart(s: Sys)
    requires Init(s)
    ensures WorkersInv(s)
  {
    forall i | 0 <= i < |s.tasks|
      ensures WorkerInv(s.pool, s.ctxDone, s.pool.states[i], s.tasks[i]) && SleepsPast(s.pool, s.tasks[i])
    {
      assert s.tasks[i] == Task(Claiming, []);
    }
  }
}
