/** What the guest's listing is boiled down to: its slots for Hello, and the reap pass's probe. */
module GuestReports {
  import opened RegistrySections
  import opened Sorting
  import P = PoolSections
  import A = Adoption
  import D = Delivery

  datatype SlotInfo = SlotInfo(index: nat, busy: bool, executionID: string)

  predicate RunsOn(states: seq<ListEntry>, i: int, slot: int) {
    0 <= i < |states| && states[i].running && states[i].slot == slot
  }

  /** The guest's configured slots; one is busy exactly when a listed running execution is on it. */
  method Slots(states: seq<ListEntry>, slotCount: nat) returns (slots: seq<SlotInfo>)
    ensures |slots| == slotCount
    ensures forall k :: 0 <= k < slotCount ==>
              && slots[k].index == k
              && (slots[k].busy <==> exists i :: RunsOn(states, i, k))
              && (slots[k].busy ==> exists i :: RunsOn(states, i, k) && states[i].id == slots[k].executionID)
  {
    var activeBySlot: map<nat, string> := map[];
    for n := 0 to |states|
      invariant forall k :: k in activeBySlot ==> exists i :: RunsOn(states, i, k) && states[i].id == activeBySlot[k]
      invariant forall i :: 0 <= i < n && states[i].running ==> states[i].slot in activeBySlot
    {
      if states[n].running {
        assert RunsOn(states, n, states[n].slot);
        activeBySlot := activeBySlot[states[n].slot := states[n].id];
      }
    }
    slots := [];
    for k := 0 to slotCount
      invariant |slots| == k
      invariant forall m :: 0 <= m < k ==>
                  slots[m] == SlotInfo(m, m in activeBySlot, if m in activeBySlot then activeBySlot[m] else "")
    {
      slots := slots + [SlotInfo(k, k in activeBySlot, if k in activeBySlot then activeBySlot[k] else "")];
    }
    forall k, i | 0 <= k < slotCount && RunsOn(states, i, k)
      ensures slots[k].busy
    {
      assert states[i].slot in activeBySlot;
    }
  }

  /** The slots with a running execution, as a reap pass probes them. */
  method RunningSlots(states: seq<ListEntry>) returns (probe: P.Probe)
    ensures probe.RunningSlots?
    ensures forall k :: k in probe.running <==> exists i :: RunsOn(states, i, k)
  {
    var running: set<int> := {};
    for n := 0 to |states|
      invariant forall k :: k in running <==> exists i :: i < n && RunsOn(states, i, k)
    {
      if states[n].running {
        assert RunsOn(states, n, states[n].slot);
        running := running + {states[n].slot};
      }
    }
    probe := P.RunningSlots(running);
  }

  /** A listing taken in any run names at most one running execution per slot, so no entry hides another. */
  lemma OneRunningEntryPerSlot(run: seq<D.Sys>, acts: seq<D.Act>, n: nat, j: nat, a: nat, b: nat, slot: int)
    requires D.IsRun(run, acts) && n < |run| && j < |run[n].listings|
    requires var states := SortBy(run[n].listings[j].entries, EntryId); RunsOn(states, a, slot) && RunsOn(states, b, slot)
    ensures a == b
  {
    A.SortedRunningSlotsDiffer(run, acts, n, j);
    hide D.IsRun;
  }
}
