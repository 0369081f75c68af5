/** What each critical section of the pool does to it, field by field and slot by slot. */
module PoolOutcomes {
  import opened Wrappers
  import opened PoolSections

  // ----- what stays ---------------------------------------------------------------------------

  /** Nothing changed but the workers, the cancelled contexts and the number of broadcasts. */
  predicate SamePool(p: PoolData, q: PoolData) {
    && q.queue == p.queue && q.started == p.started && q.shuttingDown == p.shuttingDown
    && q.options == p.options && q.nextBind == p.nextBind && |q.states| == |p.states|
  }

  /** Nothing changed but worker i, the cancelled contexts and the number of broadcasts. */
  predicate OnlyWorker(p: PoolData, q: PoolData, i: nat) {
    SamePool(p, q) && forall j :: 0 <= j < |p.states| && j != i ==> q.states[j] == p.states[j]
  }

  /** Of the workers only slot k, the recycle mark and the idle clock of worker i may have changed. */
  predicate OnlySlot(p: PoolData, q: PoolData, i: nat, k: nat) {
    && i < |p.states| && k < |p.states[i].slots| && OnlyWorker(p, q, i)
    && q.states[i].vm == p.states[i].vm && q.states[i].bornAt == p.states[i].bornAt
    && q.states[i].warming == p.states[i].warming && q.states[i].lastErr == p.states[i].lastErr
    && |q.states[i].slots| == |p.states[i].slots|
    && forall m :: 0 <= m < |p.states[i].slots| && m != k ==> q.states[i].slots[m] == p.states[i].slots[m]
  }

  /** A slot that no job holds, with the error its last job left. */
  predicate IsFree(slot: SlotState, err: Option<Err>) {
    && !slot.busy && slot.boundAt == 0 && slot.jobID == 0 && slot.runID == 0 && slot.executionID == ""
    && slot.resumeCursor == 0 && !slot.jobCancel && slot.reapWarnedAt == 0 && !slot.adopted && slot.lastErr == err
  }

  /** The slot holds the same binding, but for its cancel function and its warning mark. */
  predicate SameJob(slot: SlotState, slot': SlotState) {
    && slot'.busy == slot.busy && slot'.boundAt == slot.boundAt && slot'.jobID == slot.jobID && slot'.runID == slot.runID
    && slot'.executionID == slot.executionID && slot'.resumeCursor == slot.resumeCursor
    && slot'.adopted == slot.adopted && slot'.lastErr == slot.lastErr && slot'.bind == slot.bind
  }

  /** The context of this binding is cancelled, with this cause unless it was cancelled before. */
  ghost predicate Cancelled(p: PoolData, q: PoolData, bind: nat, cause: Cause) {
    && bind in q.causes && q.causes[bind] == (if bind in p.causes then p.causes[bind] else cause)
    && forall b :: b != bind ==> (b in q.causes <==> b in p.causes) && (b in p.causes ==> q.causes[b] == p.causes[b])
  }

  // ----- CancelRun ------------------------------------------------------------------------------

  predicate JobAt(p: PoolData, i: nat, k: nat, jobID: int) {
    i < |p.states| && k < |p.states[i].slots| && p.states[i].slots[k].busy && p.states[i].slots[k].jobID == jobID
  }

  /** The first slot that is busy with the job, in worker and then slot order. */
  ghost predicate FirstJobAt(p: PoolData, i: nat, k: nat, jobID: int) {
    JobAt(p, i, k, jobID) && forall j: nat, m: nat :: JobAt(p, j, m, jobID) ==> i < j || (i == j && k <= m)
  }

  lemma {:induction false} FindBusyIsFirst(p: PoolData, jobID: int, from: nat)
    requires from <= |p.states|
    ensures match FindBusy(p.states, jobID, from)
            case Some((i, k)) =>
              JobAt(p, i, k, jobID)
              && forall j: nat, m: nat :: from <= j && JobAt(p, j, m, jobID) ==> i < j || (i == j && k <= m)
            case None => forall j: nat, m: nat :: from <= j ==> !JobAt(p, j, m, jobID)
    decreases |p.states| - from
  {
    if from < |p.states| {
      assert forall m: nat :: JobAt(p, from, m, jobID) ==> Runs(p.states[from].slots[m], jobID);
      if FindSlot(p.states[from].slots, jobID, 0).None? { FindBusyIsFirst(p, jobID, from + 1); }
    }
  }

  /**
   Cancelling a job that some slot is busy with marks the VM of the first such slot and wakes everybody. If
   the slot has a job context that is cancelled, and the slot stays busy without it; an adopted slot that
   has none is freed. Nothing else changes.
   */
  lemma CancelRunStopsTheJob(p: PoolData, jobID: int, i: nat, k: nat)
    requires FirstJobAt(p, i, k, jobID)
    ensures var q := CancelRun(p, jobID);
      && OnlySlot(p, q, i, k) && q.states[i].idleSince == p.states[i].idleSince
      && q.states[i].recycle && q.wakes > p.wakes
      && var (slot, slot') := (p.states[i].slots[k], q.states[i].slots[k]);
         if slot.jobCancel
         then
           && SameJob(slot, slot') && slot'.reapWarnedAt == slot.reapWarnedAt && !slot'.jobCancel
           && Cancelled(p, q, slot.bind, CancelRunCause)
         else q.causes == p.causes && if slot.adopted then IsFree(slot', None) else slot' == slot
  {
    FindBusyIsFirst(p, jobID, 0);
    assert FindBusy(p.states, jobID, 0) == Some((i, k));
  }

  lemma CancelRunOfNoJob(p: PoolData, jobID: int)
    requires forall i: nat, k: nat :: !JobAt(p, i, k, jobID)
    ensures CancelRun(p, jobID) == p
  {
    FindBusyIsFirst(p, jobID, 0);
  }

  // ----- the reap pass's request ----------------------------------------------------------------

  /** The candidate's binding is still on its slot. */
  predicate StillBound(p: PoolData, c: BusyCandidate) {
    && c.index < |p.states| && p.states[c.index].vm == Some(c.vm) && 0 <= c.slotIndex < |p.states[c.index].slots|
    && var slot := p.states[c.index].slots[c.slotIndex];
       slot.busy && slot.jobID == c.jobID && slot.runID == c.runID && slot.boundAt == c.boundAt
  }

  lemma ReapRequestStopsTheJob(p: PoolData, c: BusyCandidate)
    ensures var q := RequestBusyRecycle(p, c);
      if !StillBound(p, c) then q == p
      else
        && OnlySlot(p, q, c.index, c.slotIndex) && q.states[c.index].idleSince == p.states[c.index].idleSince
        && q.states[c.index].recycle && q.wakes > p.wakes
        && var (slot, slot') := (p.states[c.index].slots[c.slotIndex], q.states[c.index].slots[c.slotIndex]);
           if slot.jobCancel
           then
             && SameJob(slot, slot') && slot'.reapWarnedAt == slot.reapWarnedAt && !slot'.jobCancel
             && Cancelled(p, q, slot.bind, RecycleCause)
           else q.causes == p.causes && if slot.adopted then IsFree(slot', None) else slot' == slot
  {
  }

  /** The claim before it leaves a mark on a binding that has none, on a VM that is not marked. */
  lemma ReapClaimMarksTheBinding(p: PoolData, c: BusyCandidate)
    ensures MayWarn(p, c) <==> StillBound(p, c) && !p.states[c.index].recycle
                               && p.states[c.index].slots[c.slotIndex].reapWarnedAt != c.boundAt
    ensures MayWarn(p, c) ==>
              var q := WarnSlot(p, c);
              && OnlySlot(p, q, c.index, c.slotIndex) && q.causes == p.causes && q.wakes == p.wakes
              && q.states[c.index].recycle == p.states[c.index].recycle
              && q.states[c.index].idleSince == p.states[c.index].idleSince
              && var (slot, slot') := (p.states[c.index].slots[c.slotIndex], q.states[c.index].slots[c.slotIndex]);
                 SameJob(slot, slot') && slot'.jobCancel == slot.jobCancel && slot'.reapWarnedAt == c.boundAt
  {
  }

  // ----- a job comes and goes --------------------------------------------------------------------

  /** A free slot of an attached, unmarked VM takes the head of the queue, if there is one and no stop. */
  lemma ClaimTakesTheHead(p: PoolData, i: nat, k: nat, vm: VmName, ctxDone: bool, now: int)
    requires i < |p.states|
    ensures JudgeSlot(p, i, k, vm, ctxDone) == SlotClaim <==>
              && !p.shuttingDown && !ctxDone && p.states[i].vm == Some(vm) && !p.states[i].recycle
              && k < |p.states[i].slots| && !p.states[i].slots[k].busy && p.queue != []
    ensures JudgeSlot(p, i, k, vm, ctxDone) == SlotStop <==>
              p.shuttingDown || ctxDone || p.states[i].vm != Some(vm) || p.states[i].recycle || k >= |p.states[i].slots|
    ensures JudgeSlot(p, i, k, vm, ctxDone) == SlotClaim ==>
              var q := ClaimJob(p, i, k, now);
              && OnlySlot(p, q.(queue := p.queue, nextBind := p.nextBind), i, k)
              && [p.queue[0]] + q.queue == p.queue && q.wakes > p.wakes && q.causes == p.causes
              && q.nextBind == p.nextBind + 1 && q.states[i].idleSince == 0 && !q.states[i].recycle
              && var slot := q.states[i].slots[k];
                 && slot.busy && slot.boundAt == now && slot.jobID == p.queue[0].jobID && slot.runID == p.queue[0].runID
                 && slot.executionID == "" && slot.resumeCursor == 0 && slot.jobCancel && slot.reapWarnedAt == 0
                 && !slot.adopted && slot.lastErr == None && slot.bind == p.nextBind
  {
  }

  /**
   The end of a job frees its slot, keeps the error there and wakes everybody; the idle clock starts when no
   other slot is busy, and not on a marked VM. It does nothing once the VM has left the worker.
   */
  lemma FinishFreesTheSlot(p: PoolData, i: nat, k: int, vm: VmName, err: Option<Err>, now: int)
    requires i < |p.states|
    ensures var q := FinishSlotJob(p, i, k, vm, err, now);
      if p.states[i].vm != Some(vm) || k < 0 || k >= |p.states[i].slots| then q == p
      else
        && OnlySlot(p, q, i, k) && q.causes == p.causes && q.wakes > p.wakes
        && q.states[i].recycle == p.states[i].recycle && IsFree(q.states[i].slots[k], err)
        && q.states[i].idleSince ==
             if exists m :: 0 <= m < |p.states[i].slots| && m != k && p.states[i].slots[m].busy then p.states[i].idleSince
             else if p.states[i].recycle then 0 else now
  {
    if p.states[i].vm == Some(vm) && 0 <= k < |p.states[i].slots| {
      var w, w' := p.states[i], FinishSlotJob(p, i, k, vm, err, now).states[i];
      assert forall m :: 0 <= m < |w.slots| && m != k ==> w'.slots[m] == w.slots[m];
      if m :| 0 <= m < |w.slots| && m != k && w.slots[m].busy { assert w'.slots[m].busy; }
    }
  }

  lemma RecycleFreesAndMarks(p: PoolData, i: int, k: int, vm: VmName, err: Option<Err>)
    ensures var q := RecycleFreeingSlot(p, i, k, vm, err);
      if i < 0 || i >= |p.states| || p.states[i].vm != Some(vm) || k < 0 || k >= |p.states[i].slots| then q == p
      else
        && OnlySlot(p, q, i, k) && q.causes == p.causes && q.wakes > p.wakes
        && q.states[i].recycle && q.states[i].idleSince == p.states[i].idleSince && IsFree(q.states[i].slots[k], err)
  {
  }

  /** Only an adopted binding that has an execution and nobody resumed can be claimed for resumption, once. */
  lemma ResumeIsClaimedOnce(p: PoolData, i: nat, k: nat, vm: VmName)
    ensures CanResume(p, i, k, vm, false) <==>
              && !p.shuttingDown && i < |p.states| && p.states[i].vm == Some(vm) && k < |p.states[i].slots|
              && p.states[i].slots[k].busy && p.states[i].slots[k].adopted
              && p.states[i].slots[k].executionID != "" && !p.states[i].slots[k].jobCancel
    ensures !CanResume(p, i, k, vm, true)
    ensures CanResume(p, i, k, vm, false) ==>
              var q := ClaimResume(p, i, k);
              && OnlySlot(p, q, i, k) && q.causes == p.causes && q.wakes == p.wakes
              && q.states[i].recycle == p.states[i].recycle && q.states[i].idleSince == p.states[i].idleSince
              && SameJob(p.states[i].slots[k], q.states[i].slots[k]) && q.states[i].slots[k].jobCancel
              && q.states[i].slots[k].reapWarnedAt == p.states[i].slots[k].reapWarnedAt
              && !CanResume(q, i, k, vm, false)
  {
  }

  // ----- stop, queue, options ----------------------------------------------------------------------

  /** A job is accepted at the queue's end, waking everybody, or refused without a trace after a stop. */
  lemma EnqueueAppends(p: PoolData, job: Job)
    ensures var q := Enqueue(p, job);
      if p.shuttingDown then q == p
      else
        && SamePool(p, q.(queue := p.queue)) && q.states == p.states && q.causes == p.causes && q.wakes > p.wakes
        && |q.queue| == |p.queue| + 1 && q.queue[..|p.queue|] == p.queue && q.queue[|p.queue|] == job
  {
  }

  /** After a stop nothing is accepted, no slot takes a job or resumes one, and every wait is over. */
  lemma ShutdownStops(p: PoolData)
    ensures var q := Shutdown(p);
      && q.shuttingDown && q.wakes > p.wakes && SamePool(p, q.(shuttingDown := p.shuttingDown))
      && q.states == p.states && q.causes == p.causes
      && (forall job :: Enqueue(q, job) == q)
      && (forall i: nat, vm, ctxDone :: i < |q.states| ==> JudgeWorker(q, i, vm, ctxDone) == WorkerStop)
      && (forall i: nat, k: nat, vm, ctxDone :: i < |q.states| ==> JudgeSlot(q, i, k, vm, ctxDone) == SlotStop)
      && (forall i: nat, k: nat, vm :: !CanResume(q, i, k, vm, false))
      && !TakeSnapshot(q).ready && !TakeSnapshot(q).healthy
  {
  }

  /** What a requested number comes to: itself when positive, otherwise its default. */
  predicate Settled(requested: int, default: int, result: int) {
    if requested > 0 then result == requested else result == default
  }

  /**
   Reconfiguring takes the requested slots, idle limits and retry delay, and the run token if one is given;
   the number of runners and the image stay. No worker changes, and everybody is woken.
   */
  lemma ReconfigureTakesEffect(p: PoolData, o: Options)
    ensures var q := Reconfigure(p, o);
      && SamePool(p, q.(options := p.options)) && q.states == p.states && q.causes == p.causes && q.wakes > p.wakes
      && q.options.runnerCount == p.options.runnerCount && q.options.image == p.options.image
      && q.options.maxIdle == o.maxIdle && q.options.maxAge == o.maxAge
      && Settled(o.jobsPerVM, 1, q.options.jobsPerVM) && Settled(o.maxBind, 25200, q.options.maxBind)
      && Settled(o.pickupTimeout, 300, q.options.pickupTimeout) && Settled(o.warmRetryDelay, 5, q.options.warmRetryDelay)
      && q.options.runToken == if o.runToken != "" then o.runToken else p.options.runToken
  {
  }

  lemma NewOptionsAreComplete(o: Options)
    ensures var r := NormalizeOptions(o);
      && Settled(o.runnerCount, 3, r.runnerCount) && Settled(o.jobsPerVM, 1, r.jobsPerVM)
      && Settled(o.maxBind, 25200, r.maxBind) && Settled(o.pickupTimeout, 300, r.pickupTimeout)
      && Settled(o.warmRetryDelay, 5, r.warmRetryDelay) && r.runToken == (if o.runToken != "" then o.runToken else "pool")
      && r.image == o.image && r.maxIdle == o.maxIdle && r.maxAge == o.maxAge
  {
  }

  // ----- a VM comes and goes ------------------------------------------------------------------------

  /** Worker i has n free slots. */
  predicate Emptied(w: WorkerState, n: int) {
    |w.slots| == n && forall k :: 0 <= k < |w.slots| ==> IsFree(w.slots[k], None)
  }

  /**
   The contexts of slots that were reset in place are cancelled, plainly; a vector of another length is
   dropped with its contexts as they are.
   */
  ghost predicate SlotsDropped(p: PoolData, q: PoolData, i: nat, n: int)
    requires i < |p.states|
  {
    && (forall b :: b in p.causes ==> b in q.causes && q.causes[b] == p.causes[b])
    && (forall b :: b in q.causes && b !in p.causes ==> q.causes[b] == PlainCancel)
    && (forall b :: b in q.causes <==>
          b in p.causes
          || (|p.states[i].slots| == n && exists k :: 0 <= k < n && p.states[i].slots[k].jobCancel && p.states[i].slots[k].bind == b))
  }

  lemma {:induction false} CancelAllExact(causes: map<nat, Cause>, slots: seq<SlotState>, b: nat)
    ensures b in CancelAll(causes, slots) <==>
              b in causes || exists k :: 0 <= k < |slots| && slots[k].jobCancel && slots[k].bind == b
  {
    if slots != [] {
      CancelAllExact(causes, slots[..|slots| - 1], b);
      assert forall k :: 0 <= k < |slots| - 1 ==> slots[..|slots| - 1][k] == slots[k];
    }
  }

  lemma ResetDropsTheSlots(p: PoolData, i: nat, slotCount: int)
    requires i < |p.states|
    ensures var (q, n) := (ResetSlotsTo(p, i, slotCount), if slotCount <= 0 then 1 else slotCount);
      && OnlyWorker(p, q, i) && q.wakes == p.wakes && Emptied(q.states[i], n)
      && q.states[i] == p.states[i].(slots := q.states[i].slots) && SlotsDropped(p, q, i, n)
  {
    forall b: nat { CancelAllExact(p.causes, p.states[i].slots, b); }
  }

  /** From p to q worker i was given these fields, and free slots in place of its own. */
  ghost predicate Renewed(p: PoolData, q: PoolData, i: nat, w: WorkerState, slotCount: int)
    requires i < |p.states|
  {
    var n := if slotCount <= 0 then 1 else slotCount;
    && OnlyWorker(p, q, i) && q.wakes > p.wakes && Emptied(q.states[i], n) && SlotsDropped(p, q, i, n)
    && q.states[i] == w.(slots := q.states[i].slots)
  }

  lemma RenewedBy(p: PoolData, i: nat, w: WorkerState, slotCount: int)
    requires i < |p.states| && w.slots == p.states[i].slots
    ensures Renewed(p, ResetSlotsTo(p.Set(i, w), i, slotCount).Broadcast(), i, w, slotCount)
  {
    ResetDropsTheSlots(p.Set(i, w), i, slotCount);
  }

  /** Warming, a failed warm-up, a fresh VM and the detach of one each renew their worker and touch no other. */
  lemma WorkersAreRenewed(p: PoolData, i: nat, err: Err, vm: VmName, slotCount: int, now: int)
    requires i < |p.states|
    ensures var (w, n) := (p.states[i], p.options.jobsPerVM);
      && Renewed(p, MarkWarming(p, i), i, WorkerState(None, 0, 0, true, false, w.slots, None), n)
      && Renewed(p, MarkWarmError(p, i, err), i,
                 WorkerState(w.vm, w.bornAt, w.idleSince, false, false, w.slots, Some(err)), n)
      && Renewed(p, ActivateWorker(p, i, vm, slotCount, now), i,
                 WorkerState(Some(vm), now, now, false, false, w.slots, None), slotCount)
      && Renewed(p, DetachWorker(p, i), i, WorkerState(None, w.bornAt, 0, true, false, w.slots, w.lastErr), n)
  {
    var (w, n) := (p.states[i], p.options.jobsPerVM);
    RenewedBy(p, i, WorkerState(None, 0, 0, true, false, w.slots, None), n);
    RenewedBy(p, i, WorkerState(w.vm, w.bornAt, w.idleSince, false, false, w.slots, Some(err)), n);
    RenewedBy(p, i, WorkerState(Some(vm), now, now, false, false, w.slots, None), slotCount);
    RenewedBy(p, i, WorkerState(None, w.bornAt, 0, true, false, w.slots, w.lastErr), n);
    hide Renewed, ResetSlotsTo;
  }

  /** A worker that ends lets go of its VM and its slots, cancelling nothing. */
  lemma ClearLetsGo(p: PoolData, i: nat)
    requires i < |p.states|
    ensures var q := ClearWorker(p, i);
      && OnlyWorker(p, q, i) && q.causes == p.causes && q.wakes > p.wakes
      && Emptied(q.states[i], if p.options.jobsPerVM < 0 then 0 else p.options.jobsPerVM)
      && q.states[i] == WorkerState(None, 0, 0, false, false, q.states[i].slots, None)
  {
  }

  /** An idle VM that is still there is marked, with the reason; a busy one never is. */
  lemma OnlyIdleVmsAreRequested(p: PoolData, i: nat, vm: VmName, err: Option<Err>)
    requires i < |p.states|
    ensures var q := RequestRecycle(p, i, vm, err);
      if p.states[i].vm != Some(vm) || (exists k :: 0 <= k < |p.states[i].slots| && p.states[i].slots[k].busy) then q == p
      else
        && OnlyWorker(p, q, i) && q.causes == p.causes && q.wakes > p.wakes
        && q.states[i] == WorkerState(Some(vm), p.states[i].bornAt, p.states[i].idleSince, p.states[i].warming, true,
                                      p.states[i].slots, err)
  {
  }

  /** The worker's wait ends at a stop, without its VM, or when that is marked and idle. */
  lemma WorkerWaitsForARecycle(p: PoolData, i: nat, vm: VmName, ctxDone: bool)
    requires i < |p.states|
    ensures var (verdict, w) := (JudgeWorker(p, i, vm, ctxDone), p.states[i]);
      && (verdict == WorkerStop <==> p.shuttingDown || ctxDone)
      && (verdict == VmGone <==> !p.shuttingDown && !ctxDone && w.vm != Some(vm))
      && (verdict == DetachNow <==>
            && !p.shuttingDown && !ctxDone && w.vm == Some(vm) && w.recycle
            && forall k :: 0 <= k < |w.slots| ==> !w.slots[k].busy)
  {
  }
  // ----- readiness ----------------------------------------------------------------------------------

  /** The places (worker, slot) of all free slots on VMs that can serve a job. */
  function FreeSlots(states: seq<WorkerState>): set<(nat, nat)> {
    set i: nat, k: nat |
      && 0 <= i < |states| && 0 <= k < |states[i].slots|
      && states[i].vm.Some? && !states[i].recycle && states[i].lastErr.None? && !states[i].slots[k].busy
      :: (i, k)
  }

  /** The places of all busy slots. */
  function BusySlots(states: seq<WorkerState>): set<(nat, nat)> {
    set i: nat, k: nat | 0 <= i < |states| && 0 <= k < |states[i].slots| && states[i].slots[k].busy :: (i, k)
  }

  /** The places of worker i's slots that are busy, or that are not. */
  function Places(slots: seq<SlotState>, i: nat, busy: bool): set<(nat, nat)> {
    set k: nat | 0 <= k < |slots| && slots[k].busy == busy :: (i, k)
  }

  lemma PlacesGrow(slots: seq<SlotState>, i: nat, busy: bool)
    requires slots != []
    ensures var last := |slots| - 1;
      |Places(slots, i, busy)| == |Places(slots[..last], i, busy)| + if slots[last].busy == busy then 1 else 0
  {
    var last := |slots| - 1;
    var before := Places(slots[..last], i, busy);
    PlaceAdded(slots, i, busy);
    assert (i, last) !in before;
    hide Places;
  }

  lemma PlaceAdded(slots: seq<SlotState>, i: nat, busy: bool)
    requires slots != []
    ensures var last := |slots| - 1;
      Places(slots, i, busy) == Places(slots[..last], i, busy) + if slots[last].busy == busy then {(i, last)} else {}
  {
  }

  lemma {:induction false} PlacesCounted(slots: seq<SlotState>, i: nat)
    ensures |Places(slots, i, false)| == IdleSlots(slots) && |Places(slots, i, true)| == |slots| - IdleSlots(slots)
  {
    if slots == [] {
      assert Places(slots, i, false) == {} && Places(slots, i, true) == {};
    } else {
      PlacesCounted(slots[..|slots| - 1], i);
      PlacesGrow(slots, i, false);
      PlacesGrow(slots, i, true);
      hide Places;
    }
  }

  lemma {:induction false} FreeSlotsCounted(states: seq<WorkerState>)
    ensures |FreeSlots(states)| == IdleCount(states)
  {
    if states == [] {
      assert FreeSlots(states) == {};
    } else {
      var last := |states| - 1;
      FreeSlotsCounted(states[..last]);
      PlacesCounted(states[last].slots, last);
      var more := if Alive(states[last]) then Places(states[last].slots, last, false) else {};
      assert FreeSlots(states) == FreeSlots(states[..last]) + more;
      assert FreeSlots(states[..last]) !! more;
    }
  }

  lemma {:induction false} BusySlotsCounted(states: seq<WorkerState>)
    ensures |BusySlots(states)| == BusyCount(states)
  {
    if states == [] {
      assert BusySlots(states) == {};
    } else {
      var last := |states| - 1;
      BusySlotsCounted(states[..last]);
      PlacesCounted(states[last].slots, last);
      var more := Places(states[last].slots, last, true);
      assert BusySlots(states) == BusySlots(states[..last]) + more;
      assert BusySlots(states[..last]) !! more;
    }
  }

  lemma {:induction false} ActiveMeansServing(states: seq<WorkerState>)
    ensures ActiveSlots(states) > 0 <==>
              exists i :: 0 <= i < |states| && states[i].vm.Some? && !states[i].recycle && states[i].lastErr.None?
                          && states[i].slots != []
  {
    if states != [] {
      var before := states[..|states| - 1];
      ActiveMeansServing(before);
      assert forall i :: 0 <= i < |before| ==> before[i] == states[i];
    }
  }

  /**
   A snapshot of a running pool counts each free slot of a VM that can serve and each busy slot once. It is
   ready if and only if more slots are free than jobs are queued, and healthy if and only if some VM can serve.
   */
  lemma SnapshotCounts(p: PoolData)
    requires p.started && !p.shuttingDown
    ensures var s := TakeSnapshot(p);
      && s.runnerCount == p.options.runnerCount && s.queued == |p.queue|
      && s.idle == |FreeSlots(p.states)| && s.busy == |BusySlots(p.states)|
      && (s.ready <==> |FreeSlots(p.states)| > |p.queue|)
      && (s.healthy <==>
            exists i :: 0 <= i < |p.states| && p.states[i].vm.Some? && !p.states[i].recycle && p.states[i].lastErr.None?
                        && p.states[i].slots != [])
  {
    FreeSlotsCounted(p.states);
    BusySlotsCounted(p.states);
    ActiveMeansServing(p.states);
  }
}
