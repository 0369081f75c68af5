/** Adopted VMs and their slot bindings, and how the pool installs them in its workers. */
module AdoptionSections {
  import opened Wrappers
  import opened PoolSections
  import R = RegistrySections

  datatype SlotBinding = SlotBinding(
    slotIndex: int, repo: string, jobID: int, runID: int,
    executionID: string, resumeCursor: nat, boundAt: int, observedActive: bool)

  datatype AdoptedVM = AdoptedVM(vm: Option<VmName>, slots: seq<SlotBinding>)

  function NormalizeSlotCount(n: int): (r: nat)
    ensures r >= 1
  {
    if n < 1 then 1 else n
  }

  function BindingOf(e: R.ListEntry): SlotBinding {
    SlotBinding(e.slot, e.meta.repo, e.meta.jobID, e.meta.runID, e.id, e.lastSequence, 0, true)
  }

  /** Only running executions occupy a slot, and slots the pool does not know are ignored. */
  predicate Occupies(e: R.ListEntry, slotCount: nat) {
    e.running && e.slot < slotCount
  }

  function ReattachSlots(entries: seq<R.ListEntry>, slotCount: nat): seq<SlotBinding> {
    if entries == [] then []
    else
      var last := entries[|entries| - 1];
      ReattachSlots(entries[..|entries| - 1], slotCount) + if Occupies(last, slotCount) then [BindingOf(last)] else []
  }

  predicate BindingBusy(b: SlotBinding) {
    b.observedActive || (b.jobID > 0 && b.runID > 0)
  }

  /** The binding takes a slot of a worker that has n of them. */
  predicate Fits(b: SlotBinding, n: nat) {
    0 <= b.slotIndex < n && BindingBusy(b)
  }

  function BoundSlot(b: SlotBinding, now: int, bind: nat): SlotState {
    SlotState(if b.boundAt == 0 then now else b.boundAt, true, b.jobID, b.runID,
              b.executionID, b.resumeCursor, false, 0, true, None, bind)
  }

  /** The slots after the bindings were written in order; the j-th binding gets bind number base + j. */
  function BindSlots(bindings: seq<SlotBinding>, n: nat, now: int, base: nat): (slots: seq<SlotState>)
    ensures |slots| == n
  {
    if bindings == [] then EmptySlots(n)
    else
      var last := |bindings| - 1;
      var slots := BindSlots(bindings[..last], n, now, base);
      if Fits(bindings[last], n)
      then slots[bindings[last].slotIndex := BoundSlot(bindings[last], now, base + last)]
      else slots
  }

  predicate AnyFits(bindings: seq<SlotBinding>, n: nat) {
    exists j :: 0 <= j < |bindings| && Fits(bindings[j], n)
  }

  function InstalledWorker(vm: VmName, bindings: seq<SlotBinding>, n: nat, now: int, base: nat): WorkerState {
    WorkerState(Some(vm), now, if AnyFits(bindings, n) then 0 else now, false, false,
                BindSlots(bindings, n, now, base), None)
  }

  function SlotCountOf(p: PoolData): nat {
    if p.options.jobsPerVM < 0 then 0 else p.options.jobsPerVM
  }

  /** The adopted VMs go to the workers from index `next` on; VMs beyond the last worker are dropped. */
  function Install(p: PoolData, adopted: seq<AdoptedVM>, next: nat, now: int): PoolData
    decreases |adopted|
  {
    if adopted == [] || next >= |p.states| then p
    else if adopted[0].vm.None? then Install(p, adopted[1..], next, now)
    else
      var w := InstalledWorker(adopted[0].vm.value, adopted[0].slots, SlotCountOf(p), now, p.nextBind);
      Install(p.Set(next, w).(nextBind := p.nextBind + |adopted[0].slots|), adopted[1..], next + 1, now)
  }

  /** The last binding that takes slot k, if any. */
  predicate Decides(bindings: seq<SlotBinding>, n: nat, k: int, j: int) {
    && 0 <= j < |bindings| && Fits(bindings[j], n) && bindings[j].slotIndex == k
    && forall i :: j < i < |bindings| && Fits(bindings[i], n) ==> bindings[i].slotIndex != k
  }

  /** A slot is what the last binding for it says, or empty when none takes it. */
  lemma {:induction false} BindSlotsExact(bindings: seq<SlotBinding>, n: nat, now: int, base: nat, k: nat)
    requires k < n
    ensures var slot := BindSlots(bindings, n, now, base)[k];
      && (slot.busy <==> exists j :: Decides(bindings, n, k, j))
      && (forall j :: Decides(bindings, n, k, j) ==> slot == BoundSlot(bindings[j], now, base + j))
      && (!slot.busy ==> slot == EmptySlot())
  {
    if bindings != [] {
      var last := |bindings| - 1;
      BindSlotsExact(bindings[..last], n, now, base, k);
      if Fits(bindings[last], n) && bindings[last].slotIndex == k {
        assert Decides(bindings, n, k, last);
        assert forall j :: Decides(bindings, n, k, j) ==> j == last;
      } else {
        assert forall j :: Decides(bindings, n, k, j) <==> Decides(bindings[..last], n, k, j);
      }
    }
  }
}
