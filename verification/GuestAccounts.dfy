/** The registry's books: ids, slots, the active count and the drained channel, kept by every section. */
module GuestAccounts {
  import opened Wrappers
  import opened EventLog
  import opened RegistrySections

  function CountRunning(heap: seq<Exec>): nat {
    if heap == [] then 0
    else CountRunning(heap[..|heap| - 1]) + if heap[|heap| - 1].running then 1 else 0
  }

  lemma {:induction false} CountUpdate(heap: seq<Exec>, h: nat, e: Exec)
    requires h < |heap|
    ensures CountRunning(heap[h := e]) + (if heap[h].running then 1 else 0)
         == CountRunning(heap) + if e.running then 1 else 0
  {
    var last := |heap| - 1;
    if h < last {
      CountUpdate(heap[..last], h, e);
      assert heap[h := e][..last] == heap[..last][h := e];
    } else {
      assert heap[h := e][..last] == heap[..last];
    }
  }

  lemma CountAppend(heap: seq<Exec>, e: Exec)
    ensures CountRunning(heap + [e]) == CountRunning(heap) + if e.running then 1 else 0
  {
    assert (heap + [e])[..|heap|] == heap;
  }

  /** Handle h is registered under its id and holds its slot. */
  predicate Holds(r: Reg, h: nat)
    requires h < |r.heap|
  {
    && r.heap[h].id in r.byId && r.byId[r.heap[h].id] == h
    && r.heap[h].slot in r.slots && r.slots[r.heap[h].slot] == r.heap[h].id
  }

  /** Ids lead to the latest execution registered under them. */
  predicate IdsInv(r: Reg) {
    && (forall id :: id in r.byId ==> r.byId[id] < |r.heap| && r.heap[r.byId[id]].id == id)
    && (forall h :: 0 <= h < |r.heap| && r.heap[h].id in r.byId ==> h <= r.byId[r.heap[h].id])
  }

  predicate RunningInv(r: Reg) {
    forall h :: 0 <= h < |r.heap| && r.heap[h].running ==> Holds(r, h)
  }

  /** The slot's id leads to an execution running on it. */
  predicate Served(r: Reg, slot: nat)
    requires slot in r.slots
  {
    && r.slots[slot] in r.byId && r.byId[r.slots[slot]] < |r.heap|
    && r.heap[r.byId[r.slots[slot]]].running && r.heap[r.byId[r.slots[slot]]].slot == slot
  }

  predicate SlotsInv(r: Reg) {
    forall s :: s in r.slots ==> Served(r, s)
  }

  predicate CountsInv(r: Reg) {
    && r.activeCount == |r.slots| && r.activeCount == CountRunning(r.heap)
    && (r.drainedClosed <==> r.draining && r.activeCount == 0)
    && r.closes == if r.drainedClosed then 1 else 0
  }

  predicate RegInv(r: Reg) {
    IdsInv(r) && RunningInv(r) && SlotsInv(r) && CountsInv(r)
  }

  /** q is r but for flags and logs of its executions. */
  predicate SameLives(r: Reg, q: Reg) {
    && |q.heap| == |r.heap| && q.byId == r.byId && q.slots == r.slots
    && forall h :: 0 <= h < |r.heap| ==>
         q.heap[h].id == r.heap[h].id && q.heap[h].slot == r.heap[h].slot && q.heap[h].running == r.heap[h].running
  }

  lemma SameLivesKeeps(r: Reg, q: Reg)
    requires IdsInv(r) && RunningInv(r) && SlotsInv(r) && SameLives(r, q)
    ensures IdsInv(q) && RunningInv(q) && SlotsInv(q)
  {
    assert IdsInv(q) by { hide RunningInv, SlotsInv; }
    assert RunningInv(q) by {
      hide IdsInv, SlotsInv;
      assert forall j :: 0 <= j < |q.heap| && q.heap[j].running ==> Holds(r, j) && Holds(q, j);
    }
    assert SlotsInv(q) by {
      hide IdsInv, RunningInv;
      assert forall s :: s in q.slots ==> Served(r, s) && Served(q, s);
    }
  }

  /** An execution may grow its log and change flags, but not its id, slot or liveness. */
  lemma QuietUpdateKeeps(r: Reg, h: nat, e: Exec)
    requires RegInv(r) && h < |r.heap|
    requires e.id == r.heap[h].id && e.slot == r.heap[h].slot && e.running == r.heap[h].running
    ensures RegInv(SetExec(r, h, e))
  {
    CountUpdate(r.heap, h, e);
    hide IdsInv, RunningInv, SlotsInv;
    SameLivesKeeps(r, SetExec(r, h, e));
  }

  /** q is r with one more execution, running under a free id on a free slot. */
  predicate Grown(r: Reg, q: Reg, e: Exec) {
    && e.running && e.id !in r.byId && e.slot !in r.slots && !r.draining
    && q.heap == r.heap + [e] && q.byId == r.byId[e.id := |r.heap|] && q.slots == r.slots[e.slot := e.id]
    && q.activeCount == r.activeCount + 1
    && q.draining == r.draining && q.drainedClosed == r.drainedClosed && q.closes == r.closes
  }

  lemma GrownIds(r: Reg, q: Reg, e: Exec)
    requires IdsInv(r) && Grown(r, q, e)
    ensures IdsInv(q)
  {
    var n := |r.heap|;
    assert forall h :: 0 <= h < n ==> q.heap[h] == r.heap[h];
    forall id | id in q.byId
      ensures q.byId[id] < |q.heap| && q.heap[q.byId[id]].id == id
    {
      assert id == e.id || (id in r.byId && q.byId[id] == r.byId[id]);
    }
  }

  lemma GrownRunning(r: Reg, q: Reg, e: Exec)
    requires RunningInv(r) && Grown(r, q, e)
    ensures RunningInv(q)
  {
    forall h | 0 <= h < |q.heap| && q.heap[h].running
      ensures Holds(q, h)
    {
      if h < |r.heap| { assert q.heap[h] == r.heap[h] && Holds(r, h); }
    }
  }

  lemma GrownSlots(r: Reg, q: Reg, e: Exec)
    requires SlotsInv(r) && Grown(r, q, e)
    ensures SlotsInv(q)
  {
    forall s | s in q.slots
      ensures Served(q, s)
    {
      if s != e.slot { assert Served(r, s) && q.slots[s] == r.slots[s]; }
    }
  }

  lemma GrownCounts(r: Reg, q: Reg, e: Exec)
    requires CountsInv(r) && Grown(r, q, e)
    ensures CountsInv(q)
  {
    CountAppend(r.heap, e);
    assert q.slots.Keys == r.slots.Keys + {e.slot};
  }

  lemma RegisterKeeps(r: Reg, id: string, slot: nat, meta: JobMeta, pid: int)
    requires RegInv(r) && WellFormed(r) && Admission(r, id, slot) == Accepted
    ensures RegInv(Register(r, id, slot, meta, pid))
  {
    var e := NewExec(id, slot, meta, pid);
    var q := Register(r, id, slot, meta, pid);
    hide IdsInv, RunningInv, SlotsInv, CountsInv;
    assert Grown(r, q, e);
    hide Grown;
    GrownIds(r, q, e);
    GrownRunning(r, q, e);
    GrownSlots(r, q, e);
    GrownCounts(r, q, e);
  }

  /** q is r after execution h stopped and gave its slot back. */
  predicate Stopped(r: Reg, q: Reg, h: nat) {
    && h < |r.heap| && r.heap[h].running && |q.heap| == |r.heap|
    && !q.heap[h].running && q.heap[h].id == r.heap[h].id && q.heap[h].slot == r.heap[h].slot
    && (forall j :: 0 <= j < |r.heap| && j != h ==> q.heap[j] == r.heap[j])
    && q.byId == r.byId && q.slots == r.slots - {r.heap[h].slot}
  }

  lemma StoppedIds(r: Reg, q: Reg, h: nat)
    requires IdsInv(r) && Stopped(r, q, h)
    ensures IdsInv(q)
  {
    assert forall j :: 0 <= j < |r.heap| ==> q.heap[j].id == r.heap[j].id;
  }

  lemma StoppedRunning(r: Reg, q: Reg, h: nat)
    requires RunningInv(r) && Stopped(r, q, h)
    ensures RunningInv(q)
  {
    assert Holds(r, h);
    forall j | 0 <= j < |q.heap| && q.heap[j].running
      ensures Holds(q, j)
    {
      assert q.heap[j] == r.heap[j] && Holds(r, j);
    }
  }

  lemma StoppedSlots(r: Reg, q: Reg, h: nat)
    requires SlotsInv(r) && RunningInv(r) && Stopped(r, q, h)
    ensures SlotsInv(q)
  {
    assert Holds(r, h);
    forall s | s in q.slots
      ensures Served(q, s)
    {
      assert Served(r, s);
    }
  }

  lemma CompletionCounts(r: Reg, h: nat)
    requires CountsInv(r) && h < |r.heap| && r.heap[h].running && r.heap[h].slot in r.slots
    ensures CountsInv(Complete(r, h))
  {
    var q := Complete(r, h);
    CountUpdate(r.heap, h, CompleteExec(r.heap[h]));
    assert q.slots.Keys == r.slots.Keys - {r.heap[h].slot};
    assert |r.slots.Keys| == |q.slots.Keys| + 1;
  }

  lemma CompletionKeeps(r: Reg, h: nat)
    requires RegInv(r) && h < |r.heap| && r.heap[h].running
    ensures RegInv(Complete(r, h))
  {
    var q := Complete(r, h);
    assert Holds(r, h);
    hide IdsInv, RunningInv, SlotsInv;
    CompletionCounts(r, h);
    hide CountsInv;
    assert Stopped(r, q, h);
    hide Stopped;
    StoppedIds(r, q, h);
    StoppedRunning(r, q, h);
    StoppedSlots(r, q, h);
  }

  /** q is r without the entry of the stopped execution h. */
  predicate Forgotten(r: Reg, q: Reg, h: nat) {
    && h < |r.heap| && !r.heap[h].running && q == r.(byId := r.byId - {r.heap[h].id})
    && r.heap[h].id in r.byId && r.byId[r.heap[h].id] == h
  }

  lemma ForgottenRunning(r: Reg, q: Reg, h: nat)
    requires RunningInv(r) && Forgotten(r, q, h)
    ensures RunningInv(q)
  {
    forall j | 0 <= j < |q.heap| && q.heap[j].running
      ensures Holds(q, j)
    {
      assert Holds(r, j);
    }
  }

  lemma ForgottenSlots(r: Reg, q: Reg, h: nat)
    requires SlotsInv(r) && Forgotten(r, q, h)
    ensures SlotsInv(q)
  {
    forall s | s in q.slots
      ensures Served(q, s)
    {
      assert Served(r, s);
    }
  }

  lemma ExpireKeeps(r: Reg, h: nat)
    requires RegInv(r) && h < |r.heap| && !r.heap[h].running
    ensures RegInv(Expire(r, h))
  {
    var q := Expire(r, h);
    if q != r {
      assert IdsInv(q) && CountsInv(q) by { hide RunningInv, SlotsInv; }
      hide IdsInv, RunningInv, SlotsInv, CountsInv;
      assert Forgotten(r, q, h);
      hide Forgotten;
      ForgottenRunning(r, q, h);
      ForgottenSlots(r, q, h);
    }
  }

  lemma DrainKeeps(r: Reg)
    requires RegInv(r)
    ensures RegInv(Drain(r))
  {
    hide IdsInv, RunningInv, SlotsInv;
    SameLivesKeeps(r, Drain(r));
  }
}
