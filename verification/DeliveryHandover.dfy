/** From a stopped host to the next one: what the drain it adopts goes on with, and what neither received. */
module DeliveryHandover {
  import opened Wrappers
  import opened EventLog
  import opened RegistrySections
  import opened GuestRuns
  import opened GuestAccounts
  import opened GuestSafety
  import opened GuestHistory
  import opened DeliverySafety
  import opened DeliveryRetention
  import D = Delivery

  lemma ActLater(s: D.Sys, a: D.Act)
    requires SysInv(s) && D.Enabled(s, a)
    ensures Later(s.guest.reg.heap, D.Apply(s, a).guest.reg.heap)
  {
    LaterReflexive(s.guest.reg.heap);
    hide GuestInv, DrainsInv, ListingsInv, Later, GuestRuns.Apply, GuestRuns.Enabled, D.DrainApply, D.DrainEnabled;
    if a.GuestAct? { ActIsLater(s.guest, a.guest); }
  }

  /** Logs only grow, in every run of guest and hosts. */
  lemma {:induction false} LogsGrow(run: seq<D.Sys>, acts: seq<D.Act>, n: nat, m: nat)
    requires D.IsRun(run, acts) && n <= m < |run|
    ensures Later(run[n].guest.reg.heap, run[m].guest.reg.heap)
  {
    hide SysInv, D.Init, D.Enabled, D.Apply, Later;
    if n == m {
      LaterReflexive(run[n].guest.reg.heap);
    } else {
      LogsGrow(run, acts, n, m - 1);
      DeliverySafety.Reachable(run, acts, m - 1);
      assert D.Enabled(run[m - 1], acts[m - 1]) && run[m - 1 + 1] == D.Apply(run[m - 1], acts[m - 1]);
      ActLater(run[m - 1], acts[m - 1]);
      LaterTransitive(run[n].guest.reg.heap, run[m - 1].guest.reg.heap, run[m].guest.reg.heap);
    }
  }

  // ----- a drain's start and a returned drain stay --------------------------------------------

  /** d' is d later: it began the same, and if d had returned it received nothing since. */
  predicate LaterDrain(d: D.Drain, d': D.Drain) {
    d'.id == d.id && d'.from == d.from && (d.pc.Returned? ==> d'.pc == d.pc && d'.got == d.got && d'.cursor == d.cursor)
  }

  lemma DrainActLater(r: Reg, d: D.Drain, a: D.DrainAct)
    requires D.DrainEnabled(r, d, a)
    ensures LaterDrain(d, D.DrainApply(r, d, a))
  {
    hide D.EventsOf, D.StreamApply, D.StreamEnabled;
  }

  lemma ActLaterDrain(s: D.Sys, a: D.Act, k: nat)
    requires D.Enabled(s, a) && k < |s.drains|
    ensures k < |D.Apply(s, a).drains| && LaterDrain(s.drains[k], D.Apply(s, a).drains[k])
  {
    if a.DrainStep? && a.n == k { DrainActLater(s.guest.reg, s.drains[k], a.drain); }
    hide D.DrainApply, D.DrainEnabled, GuestRuns.Apply, GuestRuns.Enabled;
  }

  lemma {:induction false} DrainStays(run: seq<D.Sys>, acts: seq<D.Act>, n: nat, m: nat, k: nat)
    requires D.IsRun(run, acts) && n <= m < |run| && k < |run[n].drains|
    ensures k < |run[m].drains| && LaterDrain(run[n].drains[k], run[m].drains[k])
  {
    hide D.Init, D.Enabled, D.Apply;
    if n < m {
      DrainStays(run, acts, n, m - 1, k);
      assert D.Enabled(run[m - 1], acts[m - 1]) && run[m - 1 + 1] == D.Apply(run[m - 1], acts[m - 1]);
      ActLaterDrain(run[m - 1], acts[m - 1], k);
    }
  }

  // ----- a listing reads what the logs hold when it begins, or more ---------------------------

  /** Entries of this listing, begun over `heap`, were read no earlier. */
  predicate ReadsLater(heap: seq<Exec>, l: D.Listing, handles: seq<nat>) {
    && l.handles == handles && |l.entries| <= |handles|
    && forall i :: 0 <= i < |l.entries| ==>
         handles[i] < |heap| && l.entries[i].lastSequence >= |heap[handles[i]].history|
  }

  lemma ReadStep(s: D.Sys, a: D.Act, j: nat, heap: seq<Exec>, handles: seq<nat>)
    requires D.Enabled(s, a) && j < |s.listings| && ReadsLater(heap, s.listings[j], handles)
    requires Later(heap, s.guest.reg.heap) && forall i :: 0 <= i < |handles| ==> handles[i] < |heap|
    ensures j < |D.Apply(s, a).listings| && ReadsLater(heap, D.Apply(s, a).listings[j], handles)
  {
    hide D.DrainApply, D.DrainEnabled, GuestRuns.Apply, GuestRuns.Enabled, D.Collects;
    if a.ListRead? && a.j == j {
      var h := handles[|s.listings[j].entries|];
      assert ExecLater(heap[h], s.guest.reg.heap[h]);
    }
  }

  lemma ListingBegins(s: D.Sys, a: D.Act)
    requires D.Enabled(s, a) && a.ListBegin?
    ensures var s' := D.Apply(s, a);
      |s.listings| < |s'.listings| && ReadsLater(s.guest.reg.heap, s'.listings[|s.listings|], a.handles)
  {
  }

  lemma {:induction false} ListingReadsLater(run: seq<D.Sys>, acts: seq<D.Act>, m: nat, p: nat)
    requires D.IsRun(run, acts) && m < p < |run| && acts[m].ListBegin?
    ensures var j := |run[m].listings|;
      j < |run[p].listings| && ReadsLater(run[m].guest.reg.heap, run[p].listings[j], acts[m].handles)
  {
    hide D.Init, D.Enabled, D.Apply, ReadsLater, Later;
    var j, heap, handles := |run[m].listings|, run[m].guest.reg.heap, acts[m].handles;
    assert D.Enabled(run[p - 1], acts[p - 1]) && run[p - 1 + 1] == D.Apply(run[p - 1], acts[p - 1]);
    if m < p - 1 {
      CollectedExist(run, acts, m);
      ListingReadsLater(run, acts, m, p - 1);
      LogsGrow(run, acts, m, p - 1);
      hide D.IsRun, Registered;
      ReadStep(run[p - 1], acts[p - 1], j, heap, handles);
    } else {
      hide D.IsRun;
      ListingBegins(run[m], acts[m]);
    }
  }

  lemma CollectedExist(run: seq<D.Sys>, acts: seq<D.Act>, m: nat)
    requires D.IsRun(run, acts) && m < |acts| && acts[m].ListBegin?
    ensures forall i :: 0 <= i < |acts[m].handles| ==>
              acts[m].handles[i] < |run[m].guest.reg.heap| && Registered(run[m].guest.reg, acts[m].handles[i])
  {
    assert D.Enabled(run[m], acts[m]);
    DeliverySafety.Reachable(run, acts, m);
    RegParts(run[m].guest);
    hide D.IsRun, SysInv, IdsInv, RunningInv, ShapedHeap, D.Collects;
    forall i | 0 <= i < |acts[m].handles|
      ensures acts[m].handles[i] < |run[m].guest.reg.heap| && Registered(run[m].guest.reg, acts[m].handles[i])
    {
      CollectedIsRegistered(run[m].guest.reg, acts[m].handles, i);
    }
  }

  // ----- the handover ---------------------------------------------------------------------------

  /** The drain received the event of this number. */
  predicate GotNumber(d: D.Drain, number: nat) {
    exists i :: 0 <= i < |d.got| && d.got[i].event.sequence == number
  }

  /** It received exactly the numbers behind its start up to its cursor. */
  lemma GotItsRange(run: seq<D.Sys>, acts: seq<D.Act>, n: nat, k: nat, number: nat)
    requires D.IsRun(run, acts) && n < |run| && k < |run[n].drains|
    ensures var d := run[n].drains[k]; GotNumber(d, number) <==> d.from < number <= d.cursor
  {
    ProcessedExactlyOnce(run, acts, n, k);
    hide D.IsRun, Named, Delivers;
    var d := run[n].drains[k];
    if d.from < number <= d.cursor { assert d.got[number - d.from - 1].event.sequence == number; }
  }

  /** A listing begun after a drain stopped reads its execution's log at or behind its cursor. */
  lemma ListedIsNotBefore(run: seq<D.Sys>, acts: seq<D.Act>, n: nat, m: nat, p: nat, k: nat, i: nat)
    requires D.IsRun(run, acts) && n <= m < p < |run| && k < |run[n].drains| && acts[m].ListBegin?
    requires run[n].drains[k].pc == D.Returned(D.Detached)
    requires run[n].drains[k].cursor > 0 ==> AnchorRetained(run[m].guest.reg, run[n].drains[k])
    requires var j := |run[m].listings|;
      j < |run[p].listings| && i < |run[p].listings[j].entries| && run[p].listings[j].entries[i].id == run[n].drains[k].id
    ensures run[p].listings[|run[m].listings|].entries[i].lastSequence >= run[n].drains[k].cursor
  {
    var (d, j) := (run[n].drains[k], |run[m].listings|);
    if d.cursor > 0 {
      DrainHolds(run, acts, n, k);
      CollectedExist(run, acts, m);
      ListingReadsLater(run, acts, m, p);
      LogsGrow(run, acts, n, m);
      ListedIdIsItsExecution(run, acts, m, p, i);
      hide D.IsRun, GotInv, SessionInv, ShapedHeap;
      assert ExecLater(run[n].guest.reg.heap[d.anchor.value], run[m].guest.reg.heap[d.anchor.value]);
    }
  }

  lemma ListedIdIsItsExecution(run: seq<D.Sys>, acts: seq<D.Act>, m: nat, p: nat, i: nat)
    requires D.IsRun(run, acts) && m < p < |run| && acts[m].ListBegin?
    requires var j := |run[m].listings|; j < |run[p].listings| && i < |run[p].listings[j].entries|
    ensures i < |acts[m].handles| && acts[m].handles[i] < |run[m].guest.reg.heap|
    ensures run[m].guest.reg.heap[acts[m].handles[i]].id == run[p].listings[|run[m].listings|].entries[i].id
  {
    ListingReadsLater(run, acts, m, p);
    CollectedExist(run, acts, m);
    LogsGrow(run, acts, m, p);
    DeliverySafety.Reachable(run, acts, p);
    hide D.IsRun, GuestInv, DrainsInv;
    var l := run[p].listings[|run[m].listings|];
    assert ListingInv(run[p].guest.reg.heap, l);
    assert EntryInv(run[p].guest.reg.heap[l.handles[i]], l.entries[i]);
    assert ExecLater(run[m].guest.reg.heap[l.handles[i]], run[p].guest.reg.heap[l.handles[i]]);
  }

  /**
   The drain of a stopped host and the one the next host adopts: if the next host's listing began after the
   first drain detached, with its execution still retained, then the second goes on at or behind the first
   one's cursor. Of all numbers behind the first one's start, up to where the second has come, each was
   received by one of the two and by one only, but for exactly those between the two cursors.
   */
  lemma AdoptedDrainSkipsTheGap(run: seq<D.Sys>, acts: seq<D.Act>, n: nat, m: nat, p: nat, q: nat, k: nat, i: nat, number: nat)
    requires D.IsRun(run, acts) && n <= m < p < q < |run| && k < |run[n].drains|
    requires run[n].drains[k].pc == D.Returned(D.Detached)
    requires acts[m].ListBegin? && acts[p] == D.Adopt(|run[m].listings|, i)
    requires run[n].drains[k].cursor > 0 ==> AnchorRetained(run[m].guest.reg, run[n].drains[k])
    requires var j := |run[m].listings|;
      j < |run[p].listings| && i < |run[p].listings[j].entries| && run[p].listings[j].entries[i].id == run[n].drains[k].id
    ensures k < |run[q].drains| && |run[p].drains| < |run[q].drains|
    ensures var (first, second) := (run[q].drains[k], run[q].drains[|run[p].drains|]);
      && first.pc == D.Returned(D.Detached) && second.id == first.id
      && first.cursor <= second.from <= second.cursor
      && (first.from < number <= second.cursor ==>
            (GotNumber(first, number) || GotNumber(second, number) <==> !(first.cursor < number <= second.from)))
      && !(GotNumber(first, number) && GotNumber(second, number))
  {
    var x := |run[p].drains|;
    assert D.Enabled(run[p], acts[p]) && run[p + 1] == D.Apply(run[p], acts[p]);
    ListedIsNotBefore(run, acts, n, m, p, k, i);
    DrainStays(run, acts, n, q, k);
    DrainStays(run, acts, p + 1, q, x);
    GotItsRange(run, acts, q, k, number);
    GotItsRange(run, acts, q, x, number);
    ProcessedExactlyOnce(run, acts, q, x);
    hide D.IsRun, GotNumber, Named, Delivers, AnchorRetained;
  }
}
