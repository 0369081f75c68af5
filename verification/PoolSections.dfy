/**
 The values the warm-VM pool keeps under its mutex, and the effect of each of its critical
 sections as a function from the old value to the new one. `RunnerPool.Pool` carries the same
 sections out on its fields; `PoolRuns` interleaves them.
 */
module PoolSections {
  import opened Wrappers

  type VmName = string

  /** What an ended RunJob or ResumeJob reports, as far as the slot loop tells errors apart. */
  datatype Err = JobTerminal | DrainStalled | Canceled | OtherErr

  /** The cause a job context was first cancelled with. */
  datatype Cause = RecycleCause | CancelRunCause | PlainCancel

  datatype Job = Job(repo: string, jobID: int, runID: int)

  /** Durations and instants are integers; instant 0 is the zero time. */
  datatype Options = Options(
    runnerCount: int, jobsPerVM: int, image: string,
    maxIdle: int, maxAge: int, maxBind: int, pickupTimeout: int, runToken: string, warmRetryDelay: int)

  /** `bind` names the binding (and so its job context); the program has no such field. */
  datatype SlotState = SlotState(
    boundAt: int, busy: bool, jobID: int, runID: int,
    executionID: string, resumeCursor: nat, jobCancel: bool,
    reapWarnedAt: int, adopted: bool, lastErr: Option<Err>, bind: nat)

  datatype WorkerState = WorkerState(
    vm: Option<VmName>, bornAt: int, idleSince: int, warming: bool, recycle: bool,
    slots: seq<SlotState>, lastErr: Option<Err>)

  /** `causes` records each job context's cancellation, `wakes` counts condition broadcasts. */
  datatype PoolData = PoolData(
    queue: seq<Job>, states: seq<WorkerState>, started: bool, shuttingDown: bool,
    options: Options, causes: map<nat, Cause>, nextBind: nat, wakes: nat)
  {
    predicate Holds(i: nat, vm: VmName) {
      i < |states| && states[i].vm == Some(vm)
    }

    function Set(i: nat, w: WorkerState): PoolData
      requires i < |states|
    {
      this.(states := states[i := w])
    }

    function SetSlot(i: nat, k: nat, slot: SlotState): PoolData
      requires i < |states| && k < |states[i].slots|
    {
      Set(i, states[i].(slots := states[i].slots[k := slot]))
    }

    function Broadcast(): PoolData {
      this.(wakes := wakes + 1)
    }
  }

  const DEFAULT_RUNNER_COUNT := 3
  const DEFAULT_JOBS_PER_VM := 1
  const DEFAULT_MAX_BIND := 7 * 3600
  const DEFAULT_PICKUP_TIMEOUT := 5 * 60
  const DEFAULT_WARM_RETRY_DELAY := 5
  const DEFAULT_RUN_TOKEN := "pool"

  // ----- slots ------------------------------------------------------------------------------

  function EmptySlot(): SlotState {
    SlotState(0, false, 0, 0, "", 0, false, 0, false, None, 0)
  }

  function EmptySlots(n: nat): seq<SlotState> {
    seq(n, _ => EmptySlot())
  }

  predicate Busy(w: WorkerState) {
    exists k :: 0 <= k < |w.slots| && w.slots[k].busy
  }

  /** Cancelling a context twice keeps the first cause. */
  function CancelContext(causes: map<nat, Cause>, bind: nat, cause: Cause): map<nat, Cause> {
    if bind in causes then causes else causes[bind := cause]
  }

  function CancelAll(causes: map<nat, Cause>, slots: seq<SlotState>): (r: map<nat, Cause>)
    ensures forall b :: b in causes ==> b in r && r[b] == causes[b]
    ensures forall b :: b in r && b !in causes ==> r[b] == PlainCancel
  {
    if slots == [] then causes
    else
      var rest := CancelAll(causes, slots[..|slots| - 1]);
      var last := slots[|slots| - 1];
      if last.jobCancel then CancelContext(rest, last.bind, PlainCancel) else rest
  }

  function SlotCountOrDefault(n: int): nat {
    if n <= 0 then DEFAULT_JOBS_PER_VM else n
  }

  /** A vector of another length is replaced; one of the same length is reset in place. */
  function ResetSlotsTo(p: PoolData, i: nat, slotCount: int): PoolData
    requires i < |p.states|
  {
    var n := SlotCountOrDefault(slotCount);
    var q := p.Set(i, p.states[i].(slots := EmptySlots(n)));
    if |p.states[i].slots| == n then q.(causes := CancelAll(p.causes, p.states[i].slots)) else q
  }

  // ----- queue and options ------------------------------------------------------------------

  function Enqueue(p: PoolData, job: Job): PoolData {
    if p.shuttingDown then p else p.(queue := p.queue + [job]).Broadcast()
  }

  function NormalizeOptions(o: Options): Options {
    o.(runnerCount := if o.runnerCount <= 0 then DEFAULT_RUNNER_COUNT else o.runnerCount,
       jobsPerVM := if o.jobsPerVM <= 0 then DEFAULT_JOBS_PER_VM else o.jobsPerVM,
       maxBind := if o.maxBind <= 0 then DEFAULT_MAX_BIND else o.maxBind,
       pickupTimeout := if o.pickupTimeout <= 0 then DEFAULT_PICKUP_TIMEOUT else o.pickupTimeout,
       runToken := if o.runToken == "" then DEFAULT_RUN_TOKEN else o.runToken,
       warmRetryDelay := if o.warmRetryDelay <= 0 then DEFAULT_WARM_RETRY_DELAY else o.warmRetryDelay)
  }

  function Reconfigure(p: PoolData, requested: Options): PoolData {
    var o := NormalizeOptions(requested);
    var token := if requested.runToken == "" then p.options.runToken else requested.runToken;
    p.(options := o.(runnerCount := p.options.runnerCount, image := p.options.image, runToken := token)).Broadcast()
  }

  function Shutdown(p: PoolData): PoolData {
    p.(shuttingDown := true).Broadcast()
  }

  // ----- worker lifecycle -------------------------------------------------------------------

  function ClaimWorker(p: PoolData, i: nat): Option<VmName>
    requires i < |p.states|
  {
    if p.states[i].warming then None else p.states[i].vm
  }

  function MarkWarming(p: PoolData, i: nat): PoolData
    requires i < |p.states|
  {
    var w := p.states[i].(vm := None, bornAt := 0, idleSince := 0, warming := true,
                          recycle := false, lastErr := None);
    ResetSlotsTo(p.Set(i, w), i, p.options.jobsPerVM).Broadcast()
  }

  function MarkWarmError(p: PoolData, i: nat, err: Err): PoolData
    requires i < |p.states|
  {
    var w := p.states[i].(lastErr := Some(err), warming := false, recycle := false);
    ResetSlotsTo(p.Set(i, w), i, p.options.jobsPerVM).Broadcast()
  }

  function ActivateWorker(p: PoolData, i: nat, vm: VmName, slotCount: int, now: int): PoolData
    requires i < |p.states|
  {
    var w := p.states[i].(vm := Some(vm), bornAt := now, idleSince := now, warming := false,
                          recycle := false, lastErr := None);
    ResetSlotsTo(p.Set(i, w), i, slotCount).Broadcast()
  }

  function ClearWorker(p: PoolData, i: nat): PoolData
    requires i < |p.states|
  {
    var n := if p.options.jobsPerVM < 0 then 0 else p.options.jobsPerVM;
    p.Set(i, WorkerState(None, 0, 0, false, false, EmptySlots(n), None)).Broadcast()
  }

  datatype WorkerVerdict = WorkerStop | VmGone | DetachNow | WorkerSleep

  /** What one turn of the worker's wait loop decides. */
  function JudgeWorker(p: PoolData, i: nat, vm: VmName, ctxDone: bool): WorkerVerdict
    requires i < |p.states|
  {
    if p.shuttingDown || ctxDone then WorkerStop
    else if p.states[i].vm != Some(vm) then VmGone
    else if p.states[i].recycle && !Busy(p.states[i]) then DetachNow
    else WorkerSleep
  }

  function DetachWorker(p: PoolData, i: nat): PoolData
    requires i < |p.states|
  {
    var w := p.states[i].(vm := None, recycle := false, warming := true, idleSince := 0);
    ResetSlotsTo(p.Set(i, w), i, p.options.jobsPerVM).Broadcast()
  }

  function RequestRecycle(p: PoolData, i: nat, vm: VmName, err: Option<Err>): PoolData
    requires i < |p.states|
  {
    if p.states[i].vm != Some(vm) || Busy(p.states[i]) then p
    else p.Set(i, p.states[i].(recycle := true, lastErr := err)).Broadcast()
  }

  // ----- slot lifecycle ---------------------------------------------------------------------

  datatype SlotVerdict = SlotStop | SlotClaim | SlotSleep

  /** What one turn of the slot's wait loop decides. */
  function JudgeSlot(p: PoolData, i: nat, k: int, vm: VmName, ctxDone: bool): SlotVerdict
    requires i < |p.states|
  {
    var w := p.states[i];
    if p.shuttingDown || ctxDone then SlotStop
    else if w.vm != Some(vm) || w.recycle then SlotStop
    else if !(0 <= k < |w.slots|) then SlotStop
    else if w.slots[k].busy then SlotSleep
    else if |p.queue| > 0 then SlotClaim
    else SlotSleep
  }

  /** The head of the queue is bound to slot k. */
  function ClaimJob(p: PoolData, i: nat, k: nat, now: int): PoolData
    requires i < |p.states| && k < |p.states[i].slots| && |p.queue| > 0
  {
    var job := p.queue[0];
    var slot := SlotState(now, true, job.jobID, job.runID, "", 0, true, 0, false, None, p.nextBind);
    var w := p.states[i].(idleSince := 0, slots := p.states[i].slots[k := slot]);
    p.(queue := p.queue[1..], nextBind := p.nextBind + 1).Set(i, w).Broadcast()
  }

  function FinishSlotJob(p: PoolData, i: nat, k: int, vm: VmName, err: Option<Err>, now: int): PoolData
    requires i < |p.states|
  {
    var w := p.states[i];
    if w.vm != Some(vm) || !(0 <= k < |w.slots|) then p
    else
      var freed := w.(slots := w.slots[k := EmptySlot().(lastErr := err)]);
      var idle := if Busy(freed) then w.idleSince else if w.recycle then 0 else now;
      p.Set(i, freed.(idleSince := idle)).Broadcast()
  }

  predicate CanResume(p: PoolData, i: int, k: int, vm: VmName, ctxDone: bool) {
    && !ctxDone && !p.shuttingDown
    && 0 <= i < |p.states| && p.states[i].vm == Some(vm)
    && 0 <= k < |p.states[i].slots|
    && var slot := p.states[i].slots[k];
       slot.busy && slot.adopted && slot.executionID != "" && !slot.jobCancel
  }

  function ClaimResume(p: PoolData, i: nat, k: nat): PoolData
    requires i < |p.states| && k < |p.states[i].slots|
  {
    p.SetSlot(i, k, p.states[i].slots[k].(jobCancel := true))
  }

  function RecycleFreeingSlot(p: PoolData, i: int, k: int, vm: VmName, err: Option<Err>): PoolData {
    if !(0 <= i < |p.states|) || p.states[i].vm != Some(vm) || !(0 <= k < |p.states[i].slots|) then p
    else
      var q := p.SetSlot(i, k, EmptySlot().(lastErr := err));
      q.Set(i, q.states[i].(recycle := true)).Broadcast()
  }

  // ----- cancel and reap --------------------------------------------------------------------

  datatype BusyCandidate = BusyCandidate(
    index: nat, slotIndex: int, slotCount: nat, vm: VmName, boundAt: int,
    jobID: int, runID: int, now: int, bind: nat)
  {
    function Age(): int { now - boundAt }
  }

  /** The candidate's VM is still on its worker and the slot index exists. */
  predicate Located(p: PoolData, c: BusyCandidate) {
    && p.Holds(c.index, c.vm)
    && 0 <= c.slotIndex < |p.states[c.index].slots|
  }

  /** The slot still carries the candidate's job, run and bind time. */
  predicate SameBinding(slot: SlotState, c: BusyCandidate) {
    slot.busy && slot.jobID == c.jobID && slot.runID == c.runID && slot.boundAt == c.boundAt
  }

  predicate MayWarn(p: PoolData, c: BusyCandidate) {
    && Located(p, c) && !p.states[c.index].recycle
    && var slot := p.states[c.index].slots[c.slotIndex];
       SameBinding(slot, c) && slot.reapWarnedAt != c.boundAt
  }

  function WarnSlot(p: PoolData, c: BusyCandidate): PoolData
    requires Located(p, c)
  {
    p.SetSlot(c.index, c.slotIndex, p.states[c.index].slots[c.slotIndex].(reapWarnedAt := c.boundAt))
  }

  /** Mark slot k's VM and cancel the slot's context, or free an adopted slot that has none. */
  function CancelSlot(p: PoolData, i: nat, k: nat, cause: Cause): PoolData
    requires i < |p.states| && k < |p.states[i].slots|
  {
    var w := p.states[i];
    var slot := w.slots[k];
    var after := if slot.adopted && !slot.jobCancel then EmptySlot() else slot.(jobCancel := false);
    var causes := if slot.jobCancel then CancelContext(p.causes, slot.bind, cause) else p.causes;
    p.(causes := causes).Set(i, w.(recycle := true, slots := w.slots[k := after])).Broadcast()
  }

  function RequestBusyRecycle(p: PoolData, c: BusyCandidate): PoolData {
    if Located(p, c) && SameBinding(p.states[c.index].slots[c.slotIndex], c)
    then CancelSlot(p, c.index, c.slotIndex, RecycleCause)
    else p
  }

  predicate Runs(slot: SlotState, jobID: int) {
    slot.busy && slot.jobID == jobID
  }

  /** The first busy slot bound to the job at or after slot `from`. */
  function FindSlot(slots: seq<SlotState>, jobID: int, from: nat): (r: Option<nat>)
    ensures r.Some? ==> from <= r.value < |slots| && Runs(slots[r.value], jobID)
    ensures r.Some? ==> forall k :: from <= k < r.value ==> !Runs(slots[k], jobID)
    ensures r.None? ==> forall k :: from <= k < |slots| ==> !Runs(slots[k], jobID)
    decreases |slots| - from
  {
    if from >= |slots| then None
    else if Runs(slots[from], jobID) then Some(from)
    else FindSlot(slots, jobID, from + 1)
  }

  /** The first such slot of any worker, in worker and then slot order. */
  function FindBusy(states: seq<WorkerState>, jobID: int, from: nat): (r: Option<(nat, nat)>)
    ensures r.Some? ==>
              && from <= r.value.0 < |states| && r.value.1 < |states[r.value.0].slots|
              && Runs(states[r.value.0].slots[r.value.1], jobID)
    ensures r.Some? ==> forall i :: from <= i < r.value.0 ==> FindSlot(states[i].slots, jobID, 0).None?
    ensures r.None? ==> forall i :: from <= i < |states| ==> FindSlot(states[i].slots, jobID, 0).None?
    decreases |states| - from
  {
    if from >= |states| then None
    else
      match FindSlot(states[from].slots, jobID, 0)
      case Some(k) => Some((from, k))
      case None => FindBusy(states, jobID, from + 1)
  }

  function CancelRun(p: PoolData, jobID: int): PoolData {
    match FindBusy(p.states, jobID, 0)
    case None => p
    case Some((i, k)) => CancelSlot(p, i, k, CancelRunCause)
  }

  // ----- one reap pass ----------------------------------------------------------------------

  predicate Bound(slot: SlotState) {
    slot.busy && slot.boundAt != 0
  }

  /** The reap candidates among the first n slots of one attached worker, in slot order. */
  function SlotCandidates(p: PoolData, i: nat, n: nat, now: int): seq<BusyCandidate>
    requires i < |p.states| && n <= |p.states[i].slots|
    requires p.states[i].vm.Some?
  {
    if n == 0 then []
    else
      var rest := SlotCandidates(p, i, n - 1, now);
      var slot := p.states[i].slots[n - 1];
      if !Bound(slot) then rest
      else rest + [BusyCandidate(i, n - 1, |p.states[i].slots|, p.states[i].vm.value, slot.boundAt,
                                 slot.jobID, slot.runID, now, slot.bind)]
  }

  /** All busy, bound slots of attached VMs among the first n workers. */
  function BusyCandidates(p: PoolData, n: nat, now: int): seq<BusyCandidate>
    requires n <= |p.states|
  {
    if n == 0 then []
    else
      BusyCandidates(p, n - 1, now)
      + if p.states[n - 1].vm.None? then [] else SlotCandidates(p, n - 1, |p.states[n - 1].slots|, now)
  }

  /** The candidate describes the slot it was taken from. */
  predicate TakenFrom(p: PoolData, c: BusyCandidate, now: int) {
    && Located(p, c) && c.now == now
    && var slot := p.states[c.index].slots[c.slotIndex];
       SameBinding(slot, c) && slot.bind == c.bind && Bound(slot)
  }

  lemma {:induction false} SlotCandidatesExact(p: PoolData, i: nat, n: nat, now: int)
    requires i < |p.states| && n <= |p.states[i].slots| && p.states[i].vm.Some?
    ensures forall c :: c in SlotCandidates(p, i, n, now) ==> TakenFrom(p, c, now) && c.index == i && c.slotIndex < n
    ensures forall k :: 0 <= k < n && Bound(p.states[i].slots[k]) ==>
              exists c :: c in SlotCandidates(p, i, n, now) && c.slotIndex == k
  {
    if n > 0 {
      SlotCandidatesExact(p, i, n - 1, now);
      var rest := SlotCandidates(p, i, n - 1, now);
      var all := SlotCandidates(p, i, n, now);
      assert forall c :: c in rest ==> c in all;
      if Bound(p.states[i].slots[n - 1]) {
        assert all[|all| - 1] in all && all[|all| - 1].slotIndex == n - 1;
      }
    }
  }

  /** The snapshot lists exactly the bound slots of attached VMs. */
  lemma {:induction false} BusyCandidatesExact(p: PoolData, n: nat, now: int)
    requires n <= |p.states|
    ensures forall c :: c in BusyCandidates(p, n, now) ==> TakenFrom(p, c, now) && c.index < n
    ensures forall i, k :: 0 <= i < n && p.states[i].vm.Some? && 0 <= k < |p.states[i].slots| ==>
              (Bound(p.states[i].slots[k]) ==>
                 exists c :: c in BusyCandidates(p, n, now) && c.index == i && c.slotIndex == k)
  {
    if n > 0 {
      BusyCandidatesExact(p, n - 1, now);
      var rest := BusyCandidates(p, n - 1, now);
      var all := BusyCandidates(p, n, now);
      assert forall c :: c in rest ==> c in all;
      if p.states[n - 1].vm.Some? {
        SlotCandidatesExact(p, n - 1, |p.states[n - 1].slots|, now);
        var more := SlotCandidates(p, n - 1, |p.states[n - 1].slots|, now);
        assert forall c :: c in more ==> c in all;
      }
    }
  }

  /** One VM's running-slot probe in a pass. */
  datatype Probe = ProbeFailed | RunningSlots(running: set<int>)

  datatype ReapDecision = Keep | NeedProbe | Reap

  /** What the pass does with one candidate, given the probes it has made so far. */
  function Decide(c: BusyCandidate, o: Options, probes: map<VmName, Probe>, hasProber: bool): ReapDecision {
    if o.maxBind > 0 && c.Age() >= o.maxBind then Reap
    else if !hasProber then Keep
    else if !(o.pickupTimeout > 0 && c.Age() >= o.pickupTimeout) then Keep
    else if c.vm !in probes then NeedProbe
    else if probes[c.vm].ProbeFailed? then Keep
    else if c.slotIndex in probes[c.vm].running then Keep
    else Reap
  }

  /** The only reasons for which a binding may be reaped. */
  predicate ReapJustified(c: BusyCandidate, o: Options, probes: map<VmName, Probe>) {
    || (o.maxBind > 0 && c.Age() >= o.maxBind)
    || (&& o.pickupTimeout > 0 && c.Age() >= o.pickupTimeout
        && c.vm in probes && probes[c.vm].RunningSlots? && c.slotIndex !in probes[c.vm].running)
  }

  /** What a pass decides about a candidate whose VM it probes as soon as it needs to. */
  predicate Reaps(c: BusyCandidate, o: Options, hasProber: bool, probe: VmName -> Probe) {
    Decide(c, o, map[c.vm := probe(c.vm)], hasProber).Reap?
  }

  /** Claim the candidate and, if that succeeded, request the recycle of its VM. */
  function WarnAndRequest(p: PoolData, c: BusyCandidate): PoolData {
    if MayWarn(p, c) then RequestBusyRecycle(WarnSlot(p, c), c) else p
  }

  function ReapEach(p: PoolData, candidates: seq<BusyCandidate>, hasProber: bool, probe: VmName -> Probe): (q: PoolData)
    ensures q.options == p.options
  {
    if candidates == [] then p
    else
      var q := ReapEach(p, candidates[..|candidates| - 1], hasProber, probe);
      var c := candidates[|candidates| - 1];
      if Reaps(c, p.options, hasProber, probe) then WarnAndRequest(q, c) else q
  }

  /** One uninterrupted reap pass. */
  function ReapPass(p: PoolData, now: int, hasProber: bool, probe: VmName -> Probe): PoolData {
    ReapEach(p, BusyCandidates(p, |p.states|, now), hasProber, probe)
  }

  // ----- readiness --------------------------------------------------------------------------

  predicate Alive(w: WorkerState) {
    w.vm.Some? && !w.recycle && w.lastErr.None?
  }

  function IdleSlots(slots: seq<SlotState>): (n: nat)
    ensures n <= |slots|
  {
    if slots == [] then 0
    else IdleSlots(slots[..|slots| - 1]) + if slots[|slots| - 1].busy then 0 else 1
  }

  /** Idle slots of alive VMs. */
  function IdleCount(states: seq<WorkerState>): nat {
    if states == [] then 0
    else
      var w := states[|states| - 1];
      IdleCount(states[..|states| - 1]) + if Alive(w) then IdleSlots(w.slots) else 0
  }

  function BusyCount(states: seq<WorkerState>): nat {
    if states == [] then 0
    else
      var w := states[|states| - 1];
      BusyCount(states[..|states| - 1]) + |w.slots| - IdleSlots(w.slots)
  }

  function ActiveSlots(states: seq<WorkerState>): nat {
    if states == [] then 0
    else
      var w := states[|states| - 1];
      ActiveSlots(states[..|states| - 1]) + if Alive(w) then |w.slots| else 0
  }

  datatype Snapshot = Snapshot(
    runnerCount: int, idle: nat, busy: nat, queued: nat, healthy: bool, ready: bool)

  function TakeSnapshot(p: PoolData): Snapshot {
    if !p.started || p.shuttingDown
    then Snapshot(p.options.runnerCount, 0, 0, |p.queue|, p.started && !p.shuttingDown, false)
    else Snapshot(p.options.runnerCount, IdleCount(p.states), BusyCount(p.states), |p.queue|,
                  ActiveSlots(p.states) > 0, IdleCount(p.states) > |p.queue|)
  }
}
