/**
 The pool object. Every method is one critical section under the pool's mutex, except
 `ReapBusyWorkers`, which is one whole reconcile pass run without interruption.
 */
module RunnerPool {
  import opened Wrappers
  import opened PoolSections
  import opened AdoptionSections

  class Pool {
    var queue: seq<Job>
    var states: seq<WorkerState>
    var started: bool
    var shuttingDown: bool
    var options: Options
    ghost var causes: map<nat, Cause>
    ghost var wakes: nat
    var nextBind: nat

    /** The pool as a value. */
    ghost function Data(): PoolData
      reads this
    {
      PoolData(queue, states, started, shuttingDown, options, causes, nextBind, wakes)
    }

    constructor (requested: Options)
      ensures options == NormalizeOptions(requested)
      ensures queue == [] && !started && !shuttingDown && causes == map[]
      ensures |states| == options.runnerCount
      ensures forall i :: 0 <= i < |states| ==>
                states[i] == WorkerState(None, 0, 0, false, false, EmptySlots(options.jobsPerVM), None)
    {
      var normal := NormalizeOptions(requested);
      options := normal;
      queue, started, shuttingDown := [], false, false;
      var blank := WorkerState(None, 0, 0, false, false, EmptySlots(normal.jobsPerVM), None);
      states := seq(normal.runnerCount, _ => blank);
      causes, wakes, nextBind := map[], 0, 1;
    }

    ghost method Broadcast()
      modifies this`wakes
      ensures wakes == old(wakes) + 1
    {
      wakes := wakes + 1;
    }

    /** Writes one adopted VM's bindings into the slots of a worker. */
    method BindAdoptedSlots(bindings: seq<SlotBinding>, n: nat, now: int) returns (slots: seq<SlotState>, bound: bool)
      ensures slots == BindSlots(bindings, n, now, nextBind) && bound == AnyFits(bindings, n)
    {
      slots, bound := EmptySlots(n), false;
      for j := 0 to |bindings|
        invariant slots == BindSlots(bindings[..j], n, now, nextBind)
        invariant bound == AnyFits(bindings[..j], n)
      {
        assert bindings[..j + 1][..j] == bindings[..j];
        var binding := bindings[j];
        if 0 <= binding.slotIndex < |slots| && BindingBusy(binding) {
          slots := slots[binding.slotIndex := BoundSlot(binding, now, nextBind + j)];
          assert Fits(bindings[..j + 1][j], n);
          bound := true;
        }
      }
      assert bindings[..|bindings|] == bindings;
    }

    method InstallAdoptedWorkersLocked(adopted: seq<AdoptedVM>, now: int)
      modifies this`states, this`nextBind
      ensures Data() == Install(old(Data()), adopted, 0, now)
    {
      var stateIndex := 0;
      for i := 0 to |adopted|
        invariant |states| == old(|states|)
        invariant Install(old(Data()), adopted, 0, now) == Install(Data(), adopted[i..], stateIndex, now)
      {
        if stateIndex >= |states| { break; }
        assert adopted[i..][0] == adopted[i] && adopted[i..][1..] == adopted[i + 1..];
        if adopted[i].vm.Some? {
          var n := if options.jobsPerVM < 0 then 0 else options.jobsPerVM;
          var slots, bound := BindAdoptedSlots(adopted[i].slots, n, now);
          var w := states[stateIndex].(vm := adopted[i].vm, bornAt := now, idleSince := now,
                                       warming := false, recycle := false, lastErr := None, slots := slots);
          if bound { w := w.(idleSince := 0); }
          states := states[stateIndex := w];
          nextBind := nextBind + |adopted[i].slots|;
          stateIndex := stateIndex + 1;
        }
      }
    }

    method Enqueue(job: Job, ctxErr: bool) returns (ok: bool)
      modifies this
      ensures ok == (!ctxErr && !old(shuttingDown))
      ensures Data() == if ctxErr then old(Data()) else PoolSections.Enqueue(old(Data()), job)
    {
      if ctxErr { return false; }
      if shuttingDown { return false; }
      queue := queue + [job];
      Broadcast();
      ok := true;
    }

    method Reconfigure(requested: Options)
      modifies this
      ensures Data() == PoolSections.Reconfigure(old(Data()), requested)
    {
      var next := NormalizeOptions(requested);
      if requested.runToken == "" {
        next := next.(runToken := options.runToken);
      }
      next := next.(image := options.image);
      if next.runnerCount != options.runnerCount {
        next := next.(runnerCount := options.runnerCount);
      }
      options := next;
      Broadcast();
    }

    method Shutdown()
      modifies this
      ensures Data() == PoolSections.Shutdown(old(Data()))
    {
      shuttingDown := true;
      Broadcast();
    }

    method SnapshotLocked() returns (s: Snapshot)
      ensures s == TakeSnapshot(Data())
    {
      s := Snapshot(options.runnerCount, 0, 0, |queue|, started && !shuttingDown, false);
      if !started || shuttingDown { return; }
      var idle, busy, active := 0, 0, 0;
      for i := 0 to |states|
        invariant idle == IdleCount(states[..i]) && busy == BusyCount(states[..i])
        invariant active == ActiveSlots(states[..i])
      {
        var w := states[i];
        assert states[..i + 1][..i] == states[..i];
        var alive := w.vm.Some? && !w.recycle && w.lastErr.None?;
        if alive { active := active + |w.slots|; }
        var free := 0;
        for k := 0 to |w.slots|
          invariant free == IdleSlots(w.slots[..k])
          invariant idle == IdleCount(states[..i]) + if alive then free else 0
          invariant busy == BusyCount(states[..i]) + k - free
        {
          assert w.slots[..k + 1][..k] == w.slots[..k];
          if !w.slots[k].busy { free := free + 1; }
          if alive && !w.slots[k].busy { idle := idle + 1; }
          if w.slots[k].busy { busy := busy + 1; }
        }
        assert w.slots[..|w.slots|] == w.slots;
      }
      assert states[..|states|] == states;
      s := s.(idle := idle, busy := busy, healthy := active > 0, ready := idle > |queue|);
    }

    // ----- worker goroutine -----------------------------------------------------------------

    method ClaimWorker(i: nat) returns (vm: Option<VmName>)
      requires i < |states|
      ensures vm == PoolSections.ClaimWorker(Data(), i)
    {
      if states[i].vm.None? || states[i].warming { return None; }
      vm := states[i].vm;
    }

    method ResetSlots(slots: seq<SlotState>) returns (reset: seq<SlotState>)
      modifies this`causes
      ensures reset == EmptySlots(|slots|) && causes == CancelAll(old(causes), slots)
    {
      reset := slots;
      for k := 0 to |slots|
        invariant |reset| == |slots| && reset[k..] == slots[k..]
        invariant forall j :: 0 <= j < k ==> reset[j] == EmptySlot()
        invariant causes == CancelAll(old(causes), slots[..k])
      {
        assert slots[..k + 1][..k] == slots[..k] && reset[k] == reset[k..][0] == slots[k];
        if reset[k].jobCancel {
          causes := CancelContext(causes, reset[k].bind, PlainCancel);
        }
        reset := reset[k := EmptySlot()];
      }
      assert slots[..|slots|] == slots;
    }

    method ResetWorkerSlotsTo(i: nat, slotCount: int)
      requires i < |states|
      modifies this
      ensures Data() == ResetSlotsTo(old(Data()), i, slotCount)
    {
      var n := if slotCount <= 0 then DEFAULT_JOBS_PER_VM else slotCount;
      if |states[i].slots| != n {
        states := states[i := states[i].(slots := EmptySlots(n))];
        return;
      }
      var reset := ResetSlots(states[i].slots);
      states := states[i := states[i].(slots := reset)];
    }

    method MarkWarming(i: nat)
      requires i < |states|
      modifies this
      ensures Data() == PoolSections.MarkWarming(old(Data()), i)
    {
      states := states[i := states[i].(vm := None, bornAt := 0, idleSince := 0, warming := true,
                                       recycle := false, lastErr := None)];
      ResetWorkerSlotsTo(i, options.jobsPerVM);
      Broadcast();
    }

    method MarkWarmError(i: nat, err: Err)
      requires i < |states|
      modifies this
      ensures Data() == PoolSections.MarkWarmError(old(Data()), i, err)
    {
      states := states[i := states[i].(lastErr := Some(err), warming := false, recycle := false)];
      ResetWorkerSlotsTo(i, options.jobsPerVM);
      Broadcast();
    }

    method ActivateWorker(i: nat, vm: VmName, slotCount: int, now: int)
      requires i < |states|
      modifies this
      ensures Data() == PoolSections.ActivateWorker(old(Data()), i, vm, slotCount, now)
    {
      states := states[i := states[i].(vm := Some(vm), bornAt := now, idleSince := now, warming := false,
                                       recycle := false, lastErr := None)];
      ResetWorkerSlotsTo(i, slotCount);
      Broadcast();
    }

    method ClearWorker(i: nat)
      requires i < |states|
      modifies this
      ensures Data() == PoolSections.ClearWorker(old(Data()), i)
    {
      var n := if options.jobsPerVM < 0 then 0 else options.jobsPerVM;
      states := states[i := WorkerState(None, 0, 0, false, false, EmptySlots(n), None)];
      Broadcast();
    }

    method WorkerBusy(w: WorkerState) returns (busy: bool)
      ensures busy == Busy(w)
    {
      for k := 0 to |w.slots|
        invariant forall j :: 0 <= j < k ==> !w.slots[j].busy
      {
        if w.slots[k].busy { return true; }
      }
      busy := false;
    }

    /** One turn of waitForWorkerRecycleOrShutdown, detaching the VM when it is due. */
    method PollWorker(i: nat, vm: VmName, ctxDone: bool) returns (verdict: WorkerVerdict)
      requires i < |states|
      modifies this
      ensures verdict == JudgeWorker(old(Data()), i, vm, ctxDone)
      ensures Data() == if verdict.DetachNow? then DetachWorker(old(Data()), i) else old(Data())
    {
      if shuttingDown || ctxDone { return WorkerStop; }
      if states[i].vm != Some(vm) { return VmGone; }
      var busy := WorkerBusy(states[i]);
      if states[i].recycle && !busy {
        states := states[i := states[i].(vm := None, recycle := false, warming := true, idleSince := 0)];
        ResetWorkerSlotsTo(i, options.jobsPerVM);
        Broadcast();
        return DetachNow;
      }
      verdict := WorkerSleep;
    }

    method RequestRecycle(i: nat, vm: VmName, err: Option<Err>)
      requires i < |states|
      modifies this
      ensures Data() == PoolSections.RequestRecycle(old(Data()), i, vm, err)
    {
      var busy := WorkerBusy(states[i]);
      if states[i].vm != Some(vm) || busy { return; }
      states := states[i := states[i].(recycle := true, lastErr := err)];
      Broadcast();
    }

    // ----- slot goroutine -------------------------------------------------------------------

    method DequeueJobLocked() returns (job: Job)
      requires |queue| > 0
      modifies this`queue
      ensures [job] + queue == old(queue)
    {
      job := queue[0];
      queue := queue[1..];
    }

    /** One turn of waitForSlotJob, binding the head of the queue when the slot may serve it. */
    method PollSlot(i: nat, k: int, vm: VmName, ctxDone: bool, now: int)
      returns (verdict: SlotVerdict, job: Option<Job>, bind: nat)
      requires i < |states|
      modifies this
      ensures verdict == JudgeSlot(old(Data()), i, k, vm, ctxDone)
      ensures verdict.SlotClaim? ==>
                Data() == ClaimJob(old(Data()), i, k, now) && job == Some(old(queue)[0]) && bind == old(nextBind)
      ensures !verdict.SlotClaim? ==> Data() == old(Data()) && job.None?
    {
      job, bind := None, 0;
      if shuttingDown || ctxDone { return SlotStop, job, bind; }
      if states[i].vm != Some(vm) || states[i].recycle { return SlotStop, job, bind; }
      if k < 0 || k >= |states[i].slots| { return SlotStop, job, bind; }
      if states[i].slots[k].busy { return SlotSleep, job, bind; }
      if |queue| > 0 {
        var head := DequeueJobLocked();
        assert old(queue)[0] == head && old(queue)[1..] == queue;
        bind := nextBind;
        nextBind := nextBind + 1;
        var slot := states[i].slots[k].(
          busy := true, boundAt := now, jobID := head.jobID, runID := head.runID,
          executionID := "", resumeCursor := 0, jobCancel := true, reapWarnedAt := 0,
          adopted := false, lastErr := None, bind := bind);
        states := states[i := states[i].(idleSince := 0, slots := states[i].slots[k := slot])];
        Broadcast();
        return SlotClaim, Some(head), bind;
      }
      verdict := SlotSleep;
    }

    method FinishSlotJob(i: nat, k: int, vm: VmName, err: Option<Err>, now: int)
      requires i < |states|
      modifies this
      ensures Data() == PoolSections.FinishSlotJob(old(Data()), i, k, vm, err, now)
    {
      if states[i].vm != Some(vm) || k < 0 || k >= |states[i].slots| { return; }
      states := states[i := states[i].(slots := states[i].slots[k := EmptySlot().(lastErr := err)])];
      var busy := WorkerBusy(states[i]);
      if !busy {
        states := states[i := states[i].(idleSince := if states[i].recycle then 0 else now)];
      }
      Broadcast();
    }

    method ClaimResumeSlot(i: int, k: int, vm: VmName, ctxDone: bool)
      returns (claimed: Option<(string, nat)>)
      modifies this
      ensures claimed.Some? == CanResume(old(Data()), i, k, vm, ctxDone)
      ensures claimed.Some? ==>
                && Data() == ClaimResume(old(Data()), i, k)
                && claimed.value.0 == old(states)[i].slots[k].executionID
                && claimed.value.1 == old(states)[i].slots[k].resumeCursor
      ensures claimed.None? ==> Data() == old(Data())
    {
      if ctxDone || shuttingDown { return None; }
      if i < 0 || i >= |states| { return None; }
      if states[i].vm != Some(vm) { return None; }
      if k < 0 || k >= |states[i].slots| { return None; }
      var slot := states[i].slots[k];
      if !slot.busy || !slot.adopted || slot.executionID == "" || slot.jobCancel { return None; }
      states := states[i := states[i].(slots := states[i].slots[k := slot.(jobCancel := true)])];
      claimed := Some((slot.executionID, slot.resumeCursor));
    }

    method RecycleWorkerFreeingSlot(i: int, k: int, vm: VmName, err: Option<Err>)
      modifies this
      ensures Data() == RecycleFreeingSlot(old(Data()), i, k, vm, err)
    {
      if i < 0 || i >= |states| { return; }
      if states[i].vm != Some(vm) || k < 0 || k >= |states[i].slots| { return; }
      var slot := EmptySlot().(lastErr := err);
      states := states[i := states[i].(slots := states[i].slots[k := slot])];
      states := states[i := states[i].(recycle := true)];
      Broadcast();
    }

    // ----- cancel and reap ------------------------------------------------------------------

    /** Reaps the first busy slot bound to the job, if there is one. */
    method CancelRun(jobID: int)
      modifies this
      ensures Data() == PoolSections.CancelRun(old(Data()), jobID)
    {
      for i := 0 to |states|
        invariant Data() == old(Data())
        invariant FindBusy(states, jobID, 0) == FindBusy(states, jobID, i)
      {
        for k := 0 to |states[i].slots|
          invariant Data() == old(Data())
          invariant FindSlot(states[i].slots, jobID, 0) == FindSlot(states[i].slots, jobID, k)
        {
          var slot := states[i].slots[k];
          if !slot.busy || slot.jobID != jobID { continue; }
          states := states[i := states[i].(recycle := true)];
          if slot.jobCancel {
            causes := CancelContext(causes, slot.bind, CancelRunCause);
            states := states[i := states[i].(slots := states[i].slots[k := slot.(jobCancel := false)])];
          } else if slot.adopted {
            states := states[i := states[i].(slots := states[i].slots[k := EmptySlot()])];
          }
          Broadcast();
          assert slot.(jobCancel := false) == slot || old(states)[i].slots[k].jobCancel;
          assert old(states)[i].slots[k := slot] == old(states)[i].slots;
          return;
        }
      }
    }

    method ClaimSlotReapWarning(c: BusyCandidate) returns (claimed: bool)
      modifies this
      ensures claimed == MayWarn(old(Data()), c)
      ensures Data() == if claimed then WarnSlot(old(Data()), c) else old(Data())
    {
      if c.index >= |states| { return false; }
      if || states[c.index].vm != Some(c.vm)
         || states[c.index].recycle
         || c.slotIndex < 0
         || c.slotIndex >= |states[c.index].slots| {
        return false;
      }
      var slot := states[c.index].slots[c.slotIndex];
      if !slot.busy || slot.jobID != c.jobID || slot.runID != c.runID
         || slot.boundAt != c.boundAt || slot.reapWarnedAt == c.boundAt {
        return false;
      }
      states := states[c.index := states[c.index].(
        slots := states[c.index].slots[c.slotIndex := slot.(reapWarnedAt := c.boundAt)])];
      claimed := true;
    }

    method RequestBusyRecycle(c: BusyCandidate)
      requires c.index < |states|
      modifies this
      ensures Data() == PoolSections.RequestBusyRecycle(old(Data()), c)
    {
      if || states[c.index].vm != Some(c.vm)
         || c.slotIndex < 0
         || c.slotIndex >= |states[c.index].slots| {
        return;
      }
      var slot := states[c.index].slots[c.slotIndex];
      if !slot.busy || slot.jobID != c.jobID || slot.runID != c.runID || slot.boundAt != c.boundAt {
        return;
      }
      var after := slot.(jobCancel := false);
      if slot.adopted && !slot.jobCancel { after := EmptySlot(); }
      states := states[c.index := states[c.index].(
        recycle := true, slots := states[c.index].slots[c.slotIndex := after])];
      if slot.jobCancel {
        causes := CancelContext(causes, slot.bind, RecycleCause);
      }
      Broadcast();
    }

    method CollectCandidates(now: int) returns (candidates: seq<BusyCandidate>)
      ensures candidates == BusyCandidates(Data(), |states|, now)
    {
      candidates := [];
      for i := 0 to |states|
        invariant candidates == BusyCandidates(Data(), i, now)
      {
        if states[i].vm.None? { continue; }
        ghost var before := candidates;
        for k := 0 to |states[i].slots|
          invariant candidates == before + SlotCandidates(Data(), i, k, now)
        {
          var slot := states[i].slots[k];
          if !slot.busy || slot.boundAt == 0 { continue; }
          candidates := candidates + [
            BusyCandidate(i, k, |states[i].slots|, states[i].vm.value, slot.boundAt,
                          slot.jobID, slot.runID, now, slot.bind)];
        }
      }
    }

    method WarnAndRequestBusyRecycle(c: BusyCandidate)
      modifies this
      ensures Data() == WarnAndRequest(old(Data()), c)
    {
      var claimed := ClaimSlotReapWarning(c);
      if claimed {
        RequestBusyRecycle(c);
      }
    }

    /** One uninterrupted reap pass, with at most one probe per VM. */
    method ReapBusyWorkers(now: int, hasProber: bool, probe: VmName -> Probe)
      modifies this
      ensures Data() == ReapPass(old(Data()), now, hasProber, probe)
    {
      hide WarnAndRequest, MayWarn;
      ghost var was := Data();
      var candidates := CollectCandidates(now);
      var probes: map<VmName, Probe> := map[];
      for n := 0 to |candidates|
        invariant forall vm :: vm in probes ==> probes[vm] == probe(vm)
        invariant Data() == ReapEach(was, candidates[..n], hasProber, probe)
      {
        var c := candidates[n];
        assert candidates[..n + 1][..n] == candidates[..n];
        assert options == Data().options == was.options;
        if Decide(c, options, probes, hasProber).NeedProbe? {
          probes := probes[c.vm := probe(c.vm)];
        }
        if Decide(c, options, probes, hasProber).Reap? {
          WarnAndRequestBusyRecycle(c);
        }
      }
      assert candidates[..|candidates|] == candidates;
    }
  }

  // ----- what a reap pass does ----------------------------------------------------------------

  predicate Warned(slot: SlotState) {
    Bound(slot) && slot.reapWarnedAt == slot.boundAt
  }

  /** No warned binding is waiting for its recycle request. */
  ghost predicate WarningsSettled(d: PoolData) {
    forall i, k ::
      0 <= i < |d.states| && d.states[i].vm.Some? && 0 <= k < |d.states[i].slots| && Warned(d.states[i].slots[k]) ==>
      d.states[i].recycle
  }
}
