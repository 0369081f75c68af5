/** From the guest's log to the binding a restarted host resumes: what a listing says and where its drains start. */
module AdoptedCursors {
  import opened Wrappers
  import opened EventLog
  import opened RegistrySections
  import opened GuestRuns
  import opened GuestLogs
  import opened GuestSafety
  import opened GuestHistory
  import opened DeliverySafety
  import opened DeliveryHandover
  import opened AdoptionSections
  import D = Delivery

  // ----- bindings are the running entries ------------------------------------------------------

  /** The binding carries the entry's slot, job and execution, and goes on behind what the entry listed last. */
  predicate Binds(b: SlotBinding, e: ListEntry) {
    && b.slotIndex == e.slot && b.repo == e.meta.repo && b.jobID == e.meta.jobID && b.runID == e.meta.runID
    && b.executionID == e.id && b.resumeCursor == e.lastSequence && b.boundAt == 0 && b.observedActive
  }

  /** `from` picks entries in the order of the listing. */
  predicate Ascending(from: seq<nat>, n: nat) {
    && (forall x :: 0 <= x < |from| ==> from[x] < n)
    && forall x, y :: 0 <= x < y < |from| ==> from[x] < from[y]
  }

  predicate RunsWithin(e: ListEntry, slotCount: nat) {
    e.running && e.slot < slotCount
  }

  /** `from` are the places of the running entries on known slots, and the bindings are theirs. */
  predicate BoundFrom(bindings: seq<SlotBinding>, entries: seq<ListEntry>, slotCount: nat, from: seq<nat>) {
    && |from| == |bindings| && Ascending(from, |entries|)
    && (forall x :: 0 <= x < |from| ==> RunsWithin(entries[from[x]], slotCount) && Binds(bindings[x], entries[from[x]]))
    && (forall i :: 0 <= i < |entries| && RunsWithin(entries[i], slotCount) ==> i in from)
  }

  lemma OneEntryMore(bindings: seq<SlotBinding>, entries: seq<ListEntry>, slotCount: nat, from: seq<nat>, e: ListEntry, b: SlotBinding)
    requires BoundFrom(bindings, entries, slotCount, from) && Binds(b, e)
    ensures RunsWithin(e, slotCount) ==> BoundFrom(bindings + [b], entries + [e], slotCount, from + [|entries|])
    ensures !RunsWithin(e, slotCount) ==> BoundFrom(bindings, entries + [e], slotCount, from)
  {
    hide Binds, RunsWithin;
  }

  /** The bindings made of a listing are, in its order, those of the running entries on known slots, each one once. */
  lemma {:induction false} BindingsAreTheRunningEntries(entries: seq<ListEntry>, slotCount: nat) returns (from: seq<nat>)
    ensures BoundFrom(ReattachSlots(entries, slotCount), entries, slotCount, from)
  {
    from := [];
    if entries != [] {
      var last := |entries| - 1;
      from := BindingsAreTheRunningEntries(entries[..last], slotCount);
      OneEntryMore(ReattachSlots(entries[..last], slotCount), entries[..last], slotCount, from, entries[last], BindingOf(entries[last]));
      assert entries[..last] + [entries[last]] == entries;
      if RunsWithin(entries[last], slotCount) {
        from := from + [last];
      } else {
        assert ReattachSlots(entries[..last], slotCount) + [] == ReattachSlots(entries[..last], slotCount);
      }
      hide BoundFrom;
    }
  }

  // ----- what a listing says --------------------------------------------------------------------

  /** The entry tells this execution as it is now. */
  predicate Tells(entry: ListEntry, e: Exec) {
    && entry.id == e.id && entry.slot == e.slot && entry.meta == e.meta && entry.phase == e.phase
    && entry.running == e.running && entry.lastSequence == |e.history|
  }

  lemma ReadTells(s: D.Sys, a: D.Act, j: nat, i: nat)
    requires D.Enabled(s, a) && j < |D.Apply(s, a).listings| && i < |D.Apply(s, a).listings[j].entries|
    requires j < |s.listings| ==> |s.listings[j].entries| <= |s.listings[j].handles|
    ensures var l' := D.Apply(s, a).listings[j];
      if j < |s.listings| && i < |s.listings[j].entries|
      then l'.entries[i] == s.listings[j].entries[i] && l'.handles == s.listings[j].handles
      else
        && i < |l'.handles| && l'.handles[i] < |s.guest.reg.heap| && Tells(l'.entries[i], s.guest.reg.heap[l'.handles[i]])
  {
    hide D.DrainApply, D.DrainEnabled, GuestRuns.Apply, GuestRuns.Enabled, D.Collects;
  }

  /** Every entry of a listing tells its execution as it was at one moment of the run. */
  lemma {:induction false} EntryWasRead(run: seq<D.Sys>, acts: seq<D.Act>, n: nat, j: nat, i: nat) returns (m: nat)
    requires D.IsRun(run, acts) && n < |run| && j < |run[n].listings| && i < |run[n].listings[j].entries|
    ensures m <= n && i < |run[n].listings[j].handles| && run[n].listings[j].handles[i] < |run[m].guest.reg.heap|
    ensures var (entry, e) := (run[n].listings[j].entries[i], run[m].guest.reg.heap[run[n].listings[j].handles[i]]);
      Tells(entry, e) && e.phase == if e.running then "running" else "completed"
  {
    m := n;
    if n > 0 {
      var s, a := run[n - 1], acts[n - 1];
      assert D.Enabled(s, a) && run[n - 1 + 1] == D.Apply(s, a);
      ListingsAreBounded(run, acts, n - 1);
      hide D.Init, D.Enabled, D.Apply;
      ReadTells(s, a, j, i);
      if j < |s.listings| && i < |s.listings[j].entries| {
        m := EntryWasRead(run, acts, n - 1, j, i);
      } else {
        m := n - 1;
        PhaseTells(run, acts, m, run[n].listings[j].handles[i]);
      }
    }
  }

  lemma ListingsAreBounded(run: seq<D.Sys>, acts: seq<D.Act>, n: nat)
    requires D.IsRun(run, acts) && n < |run|
    ensures forall j :: 0 <= j < |run[n].listings| ==> |run[n].listings[j].entries| <= |run[n].listings[j].handles|
  {
    DeliverySafety.Reachable(run, acts, n);
    hide D.IsRun, GuestInv, DrainsInv;
    assert forall j :: 0 <= j < |run[n].listings| ==> ListingInv(run[n].guest.reg.heap, run[n].listings[j]);
  }

  lemma PhaseTells(run: seq<D.Sys>, acts: seq<D.Act>, n: nat, h: nat)
    requires D.IsRun(run, acts) && n < |run| && h < |run[n].guest.reg.heap|
    ensures var e := run[n].guest.reg.heap[h]; e.phase == if e.running then "running" else "completed"
  {
    DeliverySafety.Reachable(run, acts, n);
    hide D.IsRun, GuestInv, DrainsInv, ListingsInv, LogShape, StdoutInv, StderrInv, TerminalInv;
    HasTask(run[n].guest);
    At(run[n].guest, h);
  }

  // ----- where an adopted drain starts ------------------------------------------------------------

  /**
   The cursor that a restarted host resumes at: each binding made of entries that a listing of any run has, in
   any order, belongs to one of the guest's executions, under its id, slot and job, and the drain that goes on from it starts at the
   binding's cursor, below that execution's terminal; no terminal is skipped by being adopted.
   */
  lemma BindingResumesBelowTheTerminal(run: seq<D.Sys>, acts: seq<D.Act>, n: nat, j: nat, answer: seq<ListEntry>,
                                       slotCount: nat, x: nat)
    returns (i: nat)
    requires D.IsRun(run, acts) && n < |run| && j < |run[n].listings|
    requires forall entry :: entry in answer ==> entry in run[n].listings[j].entries
    requires x < |ReattachSlots(answer, slotCount)|
    ensures i < |run[n].listings[j].handles| && run[n].listings[j].handles[i] < |run[n].guest.reg.heap|
    ensures D.Enabled(run[n], D.Adopt(j, i))
    ensures var b := ReattachSlots(answer, slotCount)[x];
      var (e, after) := (run[n].guest.reg.heap[run[n].listings[j].handles[i]], D.Apply(run[n], D.Adopt(j, i)).drains);
      && b.executionID == e.id && b.slotIndex == e.slot && b.jobID == e.meta.jobID && b.runID == e.meta.runID
      && |after| == |run[n].drains| + 1
      && after[|run[n].drains|].id == b.executionID && after[|run[n].drains|].cursor == b.resumeCursor
      && b.resumeCursor <= |e.history|
      && forall t :: 0 <= t < |e.history| && IsTerminal(e.history[t]) ==> b.resumeCursor < t + 1
  {
    var l := run[n].listings[j];
    var from := BindingsAreTheRunningEntries(answer, slotCount);
    assert answer[from[x]] in answer;
    i :| i < |l.entries| && l.entries[i] == answer[from[x]];
    var m := EntryWasRead(run, acts, n, j, i);
    LogsGrow(run, acts, m, n);
    EntryIsAhead(run, acts, n, j, i);
    hide D.IsRun;
    assert ExecLater(run[m].guest.reg.heap[l.handles[i]], run[n].guest.reg.heap[l.handles[i]]);
  }

  lemma EntryIsAhead(run: seq<D.Sys>, acts: seq<D.Act>, n: nat, j: nat, i: nat)
    requires D.IsRun(run, acts) && n < |run| && j < |run[n].listings| && i < |run[n].listings[j].entries|
    requires run[n].listings[j].entries[i].running
    ensures i < |run[n].listings[j].handles| && run[n].listings[j].handles[i] < |run[n].guest.reg.heap|
    ensures var (log, cursor) := (run[n].guest.reg.heap[run[n].listings[j].handles[i]].history,
                                  run[n].listings[j].entries[i].lastSequence);
      cursor <= |log| && forall t :: 0 <= t < |log| && IsTerminal(log[t]) ==> cursor < t + 1
  {
    DeliverySafety.Reachable(run, acts, n);
    RegParts(run[n].guest);
    hide D.IsRun, GuestInv, DrainsInv, LogShape;
    var l := run[n].listings[j];
    assert ListingInv(run[n].guest.reg.heap, l);
    var e := run[n].guest.reg.heap[l.handles[i]];
    assert EntryInv(e, l.entries[i]) && LogShape(e);
    ShapeInWords(e);
  }
}
