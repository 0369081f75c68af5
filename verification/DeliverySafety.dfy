/** What every drain received, and what every listing says, in every run of guest and hosts. */
module DeliverySafety {
  import opened Wrappers
  import opened EventLog
  import opened RegistrySections
  import opened GuestRuns
  import opened GuestLogs
  import opened GuestAccounts
  import opened GuestSafety
  import opened GuestHistory
  import H = HostDrain
  import D = Delivery

  predicate ShapedHeap(heap: seq<Exec>) {
    forall h :: 0 <= h < |heap| ==> LogShape(heap[h])
  }

  lemma GuestIsShaped(g: Guest)
    requires GuestInv(g)
    ensures ShapedHeap(g.reg.heap)
  {
    hide RegInv, CallsInv, LogShape, StdoutInv, StderrInv;
  }

  /** event is entry number event.sequence of the log, whole or with its data evicted. */
  predicate IsEventOf(e: Exec, event: Event) {
    1 <= event.sequence <= |e.history| && Delivers(event.payload, e.history[event.sequence - 1])
  }

  /** If the log has its terminal, the cursor is still before it. */
  predicate TerminalAhead(e: Exec, cursor: nat) {
    if e.running then cursor <= |e.history| else cursor < |e.history|
  }

  predicate Named(heap: seq<Exec>, h: nat, id: string) {
    h < |heap| && heap[h].id == id
  }

  predicate Consecutive(events: seq<Event>, after: nat) {
    forall i :: 0 <= i < |events| ==> events[i].sequence == after + 1 + i
  }

  predicate SessionInv(heap: seq<Exec>, id: string, s: D.Session, cursor: nat) {
    && Named(heap, s.h, id)
    && Consecutive(s.wire, cursor) && s.next == cursor + 1 + |s.wire|
    && (forall i :: 0 <= i < |s.wire| ==> IsEventOf(heap[s.h], s.wire[i]))
    && (forall i :: 0 <= i < |s.wire| - 1 ==> !s.wire[i].payload.TerminalResult?)
    && (s.wire != [] && s.wire[|s.wire| - 1].payload.TerminalResult? ==> s.ended)
    && (s.slept.Some? ==> s.slept.value <= |heap[s.h].history|)
    && (s.slept == Some(|heap[s.h].history|) ==> s.next > |heap[s.h].history| && heap[s.h].running && !s.ended)
    && (s.ended ==> !heap[s.h].running && s.next > |heap[s.h].history|)
  }

  predicate GotInv(heap: seq<Exec>, d: D.Drain) {
    && d.cursor == d.from + |d.got|
    && (forall i :: 0 <= i < |d.got| ==>
          && d.got[i].event.sequence == d.from + 1 + i
          && Named(heap, d.got[i].h, d.id) && IsEventOf(heap[d.got[i].h], d.got[i].event))
    && (forall i :: 0 <= i < |d.got| - 1 ==> !d.got[i].event.payload.TerminalResult?)
  }

  /** How the drain ended and whether it received a terminal agree. */
  predicate EndInv(d: D.Drain) {
    var n := |d.got|;
    if n > 0 && d.got[n - 1].event.payload.TerminalResult?
    then d.pc == D.Returned(D.Terminal(d.got[n - 1].event.payload.exitCode, d.got[n - 1].event.payload.message))
    else !(d.pc.Returned? && d.pc.how.Terminal?)
  }

  /** The cursor came from an execution of this id whose terminal is still ahead. */
  predicate AnchorInv(heap: seq<Exec>, d: D.Drain) {
    d.cursor > 0 && !(d.pc.Returned? && d.pc.how.Terminal?) ==>
      d.anchor.Some? && Named(heap, d.anchor.value, d.id) && TerminalAhead(heap[d.anchor.value], d.cursor)
  }

  predicate DrainInv(heap: seq<Exec>, d: D.Drain) {
    && GotInv(heap, d) && EndInv(d) && AnchorInv(heap, d)
    && (d.pc.Attached? ==> SessionInv(heap, d.id, d.pc.session, d.cursor))
  }

  // ----- time passing in the guest ----------------------------------------------------------

  lemma EventLater(e: Exec, e': Exec, event: Event)
    requires ExecLater(e, e') && IsEventOf(e, event)
    ensures IsEventOf(e', event)
  {
    assert e'.history[..|e.history|][event.sequence - 1] == e'.history[event.sequence - 1];
  }

  lemma AheadLater(e: Exec, e': Exec, cursor: nat)
    requires ExecLater(e, e') && LogShape(e) && LogShape(e') && TerminalAhead(e, cursor)
    ensures TerminalAhead(e', cursor)
  {
    if e.running && !e'.running { StopsByAppending(e, e'); }
  }

  /** An execution cannot stop without its log growing. */
  lemma StopsByAppending(e: Exec, e': Exec)
    requires ExecLater(e, e') && LogShape(e) && LogShape(e') && e.running && !e'.running
    ensures |e'.history| > |e.history|
  {
    assert e.history[|e.history| - 1] == e'.history[|e.history| - 1];
    assert e'.history[|e'.history| - 1].TerminalResult?;
  }

  lemma SessionLater(heap: seq<Exec>, heap': seq<Exec>, id: string, s: D.Session, cursor: nat)
    requires Later(heap, heap') && ShapedHeap(heap) && ShapedHeap(heap') && SessionInv(heap, id, s, cursor)
    ensures SessionInv(heap', id, s, cursor)
  {
    var e, e' := heap[s.h], heap'[s.h];
    assert ExecLater(e, e') && LogShape(e) && LogShape(e');
    if e.running && !e'.running { StopsByAppending(e, e'); }
    hide LogShape;
    forall i | 0 <= i < |s.wire|
      ensures IsEventOf(e', s.wire[i])
    {
      EventLater(e, e', s.wire[i]);
    }
  }

  lemma GotLater(heap: seq<Exec>, heap': seq<Exec>, d: D.Drain)
    requires Later(heap, heap') && GotInv(heap, d)
    ensures GotInv(heap', d)
  {
    forall i | 0 <= i < |d.got|
      ensures Named(heap', d.got[i].h, d.id) && IsEventOf(heap'[d.got[i].h], d.got[i].event)
    {
      EventLater(heap[d.got[i].h], heap'[d.got[i].h], d.got[i].event);
    }
  }

  lemma AnchorLater(heap: seq<Exec>, heap': seq<Exec>, d: D.Drain)
    requires Later(heap, heap') && ShapedHeap(heap) && ShapedHeap(heap') && AnchorInv(heap, d)
    ensures AnchorInv(heap', d)
  {
    if d.anchor.Some? && Named(heap, d.anchor.value, d.id) && TerminalAhead(heap[d.anchor.value], d.cursor) {
      assert ExecLater(heap[d.anchor.value], heap'[d.anchor.value]);
      AheadLater(heap[d.anchor.value], heap'[d.anchor.value], d.cursor);
    }
  }

  lemma DrainLater(heap: seq<Exec>, heap': seq<Exec>, d: D.Drain)
    requires Later(heap, heap') && ShapedHeap(heap) && ShapedHeap(heap') && DrainInv(heap, d)
    ensures DrainInv(heap', d)
  {
    hide GotInv, EndInv, AnchorInv, SessionInv, Later, ShapedHeap;
    GotLater(heap, heap', d);
    AnchorLater(heap, heap', d);
    if d.pc.Attached? { SessionLater(heap, heap', d.id, d.pc.session, d.cursor); }
  }

  // ----- a drain's own acts -----------------------------------------------------------------

  lemma ShownIsEvent(e: Exec, n: nat)
    requires n < |e.history|
    ensures IsEventOf(e, Event(n + 1, Shown(e.history, n)))
  {
  }

  lemma StreamKeeps(heap: seq<Exec>, id: string, s: D.Session, cursor: nat, x: D.StreamAct)
    requires SessionInv(heap, id, s, cursor) && ShapedHeap(heap) && D.StreamEnabled(s, heap[s.h], x)
    ensures SessionInv(heap, id, D.StreamApply(s, heap[s.h], x), cursor)
  {
    var e := heap[s.h];
    assert LogShape(e);
    if x.StreamRead? {
      ShownIsEvent(e, s.next - 1);
      ShapeInWords(e);
      hide LogShape;
      assert IsTerminal(e.history[s.next - 1]) ==> s.next == |e.history|;
    }
  }

  lemma ReceiveKeepsGot(heap: seq<Exec>, d: D.Drain)
    requires DrainInv(heap, d) && d.pc.Attached? && d.pc.session.wire != []
    ensures GotInv(heap, D.Received(d)) && EndInv(D.Received(d))
  {
    hide AnchorInv, IsEventOf;
    assert forall i :: 0 <= i < |d.got| ==> D.Received(d).got[i] == d.got[i];
  }

  lemma ReceiveKeepsAnchor(heap: seq<Exec>, d: D.Drain)
    requires DrainInv(heap, d) && ShapedHeap(heap) && d.pc.Attached? && d.pc.session.wire != []
    ensures AnchorInv(heap, D.Received(d))
  {
    hide GotInv, EndInv;
    var e := heap[d.pc.session.h];
    var event := d.pc.session.wire[0];
    assert IsEventOf(e, event) && LogShape(e);
    if !event.payload.TerminalResult? && !e.running {
      assert event.sequence != |e.history|;
    }
  }

  lemma ReceiveKeepsSession(heap: seq<Exec>, id: string, s: D.Session, cursor: nat)
    requires SessionInv(heap, id, s, cursor) && s.wire != []
    ensures s.wire[0].sequence == cursor + 1
    ensures SessionInv(heap, id, s.(wire := s.wire[1..]), cursor + 1)
  {
    hide IsEventOf;
    var rest := s.wire[1..];
    assert forall i :: 0 <= i < |rest| ==> rest[i] == s.wire[i + 1];
  }

  lemma ReceiveKeeps(heap: seq<Exec>, d: D.Drain)
    requires DrainInv(heap, d) && ShapedHeap(heap) && d.pc.Attached? && d.pc.session.wire != []
    ensures DrainInv(heap, D.Received(d))
  {
    ReceiveKeepsGot(heap, d);
    ReceiveKeepsAnchor(heap, d);
    ReceiveKeepsSession(heap, d.id, d.pc.session, d.cursor);
    hide GotInv, AnchorInv, SessionInv;
  }

  lemma OpenKeeps(r: Reg, d: D.Drain)
    requires IdsInv(r) && DrainInv(r.heap, d) && D.DrainEnabled(r, d, D.OpenSucceeds)
    ensures DrainInv(r.heap, D.DrainApply(r, d, D.OpenSucceeds))
  {
    assert Named(r.heap, r.byId[d.id], d.id);
  }

  /** What such an act leaves of a drain, and that it does not end it in a terminal. */
  predicate Quietly(d: D.Drain, d': D.Drain) {
    && d'.id == d.id && d'.from == d.from && d'.cursor == d.cursor && d'.got == d.got && d'.anchor == d.anchor
    && (d'.pc == d.pc || (!d.pc.Returned? && !d'.pc.Attached? && !(d'.pc.Returned? && d'.pc.how.Terminal?)))
  }

  lemma QuietDrainAct(r: Reg, d: D.Drain, a: D.DrainAct)
    requires D.DrainEnabled(r, d, a) && !a.Receive? && !a.StreamStep? && !a.OpenSucceeds?
    ensures Quietly(d, D.DrainApply(r, d, a))
  {
    hide D.EventsOf;
  }

  lemma QuietDrainActKeeps(r: Reg, d: D.Drain, a: D.DrainAct)
    requires DrainInv(r.heap, d) && D.DrainEnabled(r, d, a)
    requires !a.Receive? && !a.StreamStep? && !a.OpenSucceeds?
    ensures DrainInv(r.heap, D.DrainApply(r, d, a))
  {
    QuietDrainAct(r, d, a);
    hide SessionInv, TerminalAhead, IsEventOf, D.DrainApply, D.DrainEnabled;
  }

  lemma DrainActKeeps(r: Reg, d: D.Drain, a: D.DrainAct)
    requires IdsInv(r) && ShapedHeap(r.heap) && DrainInv(r.heap, d) && D.DrainEnabled(r, d, a)
    ensures DrainInv(r.heap, D.DrainApply(r, d, a))
  {
    hide ShapedHeap, IdsInv;
    if a.Receive? {
      ReceiveKeeps(r.heap, d);
    } else if a.StreamStep? {
      StreamKeeps(r.heap, d.id, d.pc.session, d.cursor, a.stream);
      hide SessionInv, IsEventOf, D.StreamApply, D.StreamEnabled;
    } else if a.OpenSucceeds? {
      OpenKeeps(r, d);
    } else {
      QuietDrainActKeeps(r, d, a);
    }
  }

  // ----- listings ---------------------------------------------------------------------------

  /** An entry read as running was not past its terminal. */
  predicate EntryInv(e: Exec, entry: ListEntry) {
    && entry.id == e.id && entry.slot == e.slot
    && (entry.running ==> TerminalAhead(e, entry.lastSequence))
  }

  predicate ListingInv(heap: seq<Exec>, l: D.Listing) {
    && |l.entries| <= |l.handles|
    && (forall i :: 0 <= i < |l.handles| ==> l.handles[i] < |heap|)
    && (forall i, j :: 0 <= i < j < |l.handles| ==> heap[l.handles[i]].id != heap[l.handles[j]].id)
    && (forall i :: 0 <= i < |l.entries| ==> EntryInv(heap[l.handles[i]], l.entries[i]))
    && (forall i, j :: 0 <= i < j < |l.entries| && l.entries[i].running && l.entries[j].running ==>
          l.entries[i].slot != l.entries[j].slot)
    && (forall i, j :: 0 <= i < |l.entries| <= j < |l.handles| && l.entries[i].running && heap[l.handles[j]].running ==>
          l.entries[i].slot != heap[l.handles[j]].slot)
  }

  lemma ListingLater(heap: seq<Exec>, heap': seq<Exec>, l: D.Listing)
    requires Later(heap, heap') && ShapedHeap(heap) && ShapedHeap(heap') && ListingInv(heap, l)
    ensures ListingInv(heap', l)
  {
    forall i | 0 <= i < |l.handles|
      ensures ExecLater(heap[l.handles[i]], heap'[l.handles[i]])
    {
    }
    forall i | 0 <= i < |l.entries|
      ensures EntryInv(heap'[l.handles[i]], l.entries[i])
    {
      var e, e' := heap[l.handles[i]], heap'[l.handles[i]];
      assert EntryInv(e, l.entries[i]);
      if l.entries[i].running { AheadLater(e, e', l.entries[i].lastSequence); }
    }
    hide LogShape;
  }

  lemma RunningSlotsDiffer(r: Reg, h1: nat, h2: nat)
    requires RunningInv(r) && h1 < |r.heap| && h2 < |r.heap| && h1 != h2
    requires r.heap[h1].running && r.heap[h2].running
    ensures r.heap[h1].slot != r.heap[h2].slot
  {
    assert Holds(r, h1);
    assert Holds(r, h2);
  }

  lemma ListReadKeeps(r: Reg, l: D.Listing)
    requires RunningInv(r) && ShapedHeap(r.heap) && ListingInv(r.heap, l)
    requires |l.entries| < |l.handles| && l.handles[|l.entries|] < |r.heap|
    ensures ListingInv(r.heap, D.ReadNext(r, l))
  {
    var n := |l.entries|;
    var h := l.handles[n];
    var l' := D.ReadNext(r, l);
    assert EntryInv(r.heap[h], l'.entries[n]);
    forall j | n < j < |l.handles| && r.heap[h].running && r.heap[l.handles[j]].running
      ensures r.heap[h].slot != r.heap[l.handles[j]].slot
    {
      RunningSlotsDiffer(r, h, l.handles[j]);
    }
    hide RunningInv, ShapedHeap;
  }

  lemma CollectedIsRegistered(r: Reg, handles: seq<nat>, i: nat)
    requires IdsInv(r) && D.Collects(r, handles) && i < |handles|
    ensures handles[i] < |r.heap| && Registered(r, handles[i])
  {
    assert handles[i] in (set h | h in handles);
    assert handles[i] in r.byId.Values;
    var id :| id in r.byId && r.byId[id] == handles[i];
  }

  lemma ListBeginKeeps(r: Reg, handles: seq<nat>)
    requires IdsInv(r) && D.Collects(r, handles)
    ensures ListingInv(r.heap, D.Listing(handles, []))
  {
    forall i | 0 <= i < |handles|
      ensures handles[i] < |r.heap|
    {
      CollectedIsRegistered(r, handles, i);
    }
    forall i, j | 0 <= i < j < |handles|
      ensures r.heap[handles[i]].id != r.heap[handles[j]].id
    {
      CollectedIsRegistered(r, handles, i);
      CollectedIsRegistered(r, handles, j);
    }
  }

  // ----- whole runs -------------------------------------------------------------------------

  predicate DrainsInv(heap: seq<Exec>, drains: seq<D.Drain>) {
    forall n :: 0 <= n < |drains| ==> DrainInv(heap, drains[n])
  }

  predicate ListingsInv(heap: seq<Exec>, listings: seq<D.Listing>) {
    forall j :: 0 <= j < |listings| ==> ListingInv(heap, listings[j])
  }

  predicate SysInv(s: D.Sys) {
    GuestInv(s.guest) && DrainsInv(s.guest.reg.heap, s.drains) && ListingsInv(s.guest.reg.heap, s.listings)
  }

  lemma GuestActKeeps(s: D.Sys, x: GuestRuns.Act)
    requires SysInv(s) && GuestRuns.Enabled(s.guest, x)
    ensures SysInv(D.Apply(s, D.GuestAct(x)))
  {
    hide GuestInv, DrainInv, ListingInv, Later, ShapedHeap, GuestRuns.Apply, GuestRuns.Enabled;
    var g' := GuestRuns.Apply(s.guest, x);
    ActKeeps(s.guest, x);
    ActIsLater(s.guest, x);
    GuestIsShaped(s.guest);
    GuestIsShaped(g');
    forall n | 0 <= n < |s.drains|
      ensures DrainInv(g'.reg.heap, s.drains[n])
    {
      DrainLater(s.guest.reg.heap, g'.reg.heap, s.drains[n]);
    }
    forall j | 0 <= j < |s.listings|
      ensures ListingInv(g'.reg.heap, s.listings[j])
    {
      ListingLater(s.guest.reg.heap, g'.reg.heap, s.listings[j]);
    }
  }

  lemma AdoptKeeps(heap: seq<Exec>, l: D.Listing, i: nat)
    requires ListingInv(heap, l) && i < |l.entries| && l.entries[i].running
    ensures DrainInv(heap, D.NewDrain(l.entries[i].id, l.entries[i].lastSequence, Some(l.handles[i])))
  {
    assert EntryInv(heap[l.handles[i]], l.entries[i]);
  }

  lemma RegParts(g: Guest)
    requires GuestInv(g)
    ensures IdsInv(g.reg) && RunningInv(g.reg) && ShapedHeap(g.reg.heap)
  {
    GuestIsShaped(g);
    hide IdsInv, RunningInv, SlotsInv, CountsInv, ExecsInv, CallsInv, ShapedHeap;
  }

  lemma DrainStepKeeps(s: D.Sys, n: nat, x: D.DrainAct)
    requires SysInv(s) && D.Enabled(s, D.DrainStep(n, x))
    ensures SysInv(D.Apply(s, D.DrainStep(n, x)))
  {
    hide GuestInv, DrainInv, ListingsInv, ShapedHeap, IdsInv, RunningInv, D.DrainApply, D.DrainEnabled;
    assert DrainInv(s.guest.reg.heap, s.drains[n]);
    hide DrainsInv;
    RegParts(s.guest);
    DrainActKeeps(s.guest.reg, s.drains[n], x);
    DrainsUpdate(s.guest.reg.heap, s.drains, n, D.DrainApply(s.guest.reg, s.drains[n], x));
  }

  lemma DrainsUpdate(heap: seq<Exec>, drains: seq<D.Drain>, n: nat, d: D.Drain)
    requires DrainsInv(heap, drains) && n < |drains| && DrainInv(heap, d)
    ensures DrainsInv(heap, drains[n := d])
  {
    hide DrainInv;
  }

  lemma NewDrainKeeps(heap: seq<Exec>, drains: seq<D.Drain>, d: D.Drain)
    requires DrainsInv(heap, drains) && DrainInv(heap, d)
    ensures DrainsInv(heap, drains + [d])
  {
    hide DrainInv;
  }

  lemma ListActKeeps(s: D.Sys, a: D.Act)
    requires SysInv(s) && D.Enabled(s, a) && (a.ListBegin? || a.ListRead?)
    ensures SysInv(D.Apply(s, a))
  {
    RegParts(s.guest);
    hide GuestInv, DrainsInv, ListingInv, ShapedHeap, IdsInv, RunningInv, D.ReadNext, D.Collects;
    if a.ListBegin? {
      ListBeginKeeps(s.guest.reg, a.handles);
    } else {
      ListReadKeeps(s.guest.reg, s.listings[a.j]);
    }
  }

  lemma HostActKeeps(s: D.Sys, a: D.Act)
    requires SysInv(s) && D.Enabled(s, a) && !a.GuestAct?
    ensures SysInv(D.Apply(s, a))
  {
    var heap := s.guest.reg.heap;
    if a.DrainStep? {
      DrainStepKeeps(s, a.n, a.drain);
    } else if a.Dispatch? {
      hide GuestInv, DrainInv, ListingInv;
      DispatchKeeps(heap, a.id);
      NewDrainKeeps(heap, s.drains, D.NewDrain(a.id, 0, None));
    } else if a.Adopt? {
      hide GuestInv, DrainInv, ListingInv;
      var l := s.listings[a.j];
      AdoptKeeps(heap, l, a.i);
      NewDrainKeeps(heap, s.drains, D.NewDrain(l.entries[a.i].id, l.entries[a.i].lastSequence, Some(l.handles[a.i])));
    } else {
      ListActKeeps(s, a);
    }
  }

  lemma DispatchKeeps(heap: seq<Exec>, id: string)
    ensures DrainInv(heap, D.NewDrain(id, 0, None))
  {
  }

  lemma InitHolds(s: D.Sys)
    requires D.Init(s)
    ensures SysInv(s)
  {
    GuestSafety.InitHolds(s.guest);
    hide GuestInv;
  }

  lemma {:induction false} Reachable(run: seq<D.Sys>, acts: seq<D.Act>, n: nat)
    requires D.IsRun(run, acts) && n < |run|
    ensures SysInv(run[n])
  {
    hide SysInv, D.Init, D.Enabled, D.Apply;
    if n == 0 {
      InitHolds(run[0]);
    } else {
      Reachable(run, acts, n - 1);
      var s, a := run[n - 1], acts[n - 1];
      assert D.Enabled(s, a) && run[n - 1 + 1] == D.Apply(s, a);
      StepKeeps(s, a);
    }
  }

  lemma StepKeeps(s: D.Sys, a: D.Act)
    requires SysInv(s) && D.Enabled(s, a)
    ensures SysInv(D.Apply(s, a))
  {
    if a.GuestAct? { GuestActKeeps(s, a.guest); } else { HostActKeeps(s, a); }
  }

  // ----- what every run guarantees ----------------------------------------------------------

  /** Execution h is the only one ever created under its id. */
  predicate SoleExecution(heap: seq<Exec>, h: nat, id: string) {
    Named(heap, h, id) && forall j :: 0 <= j < |heap| && heap[j].id == id ==> j == h
  }

  lemma DrainHolds(run: seq<D.Sys>, acts: seq<D.Act>, n: nat, k: nat)
    requires D.IsRun(run, acts) && n < |run| && k < |run[n].drains|
    ensures DrainInv(run[n].guest.reg.heap, run[n].drains[k])
    ensures ShapedHeap(run[n].guest.reg.heap)
  {
    hide D.IsRun, GuestInv, DrainInv, ListingsInv, ShapedHeap;
    Reachable(run, acts, n);
    GuestIsShaped(run[n].guest);
  }

  /**
   Exactly once, whatever breaks: the sequence numbers a drain processed are from + 1, from + 2, ...
   up to its cursor, across dropped streams, reconnects and the switch to the teardown drain; each
   event is the one with that number in the log of an execution of this id, whole or with its data
   evicted. Only the last event can be a terminal, and it is one exactly when the drain ended in it.
   */
  lemma ProcessedExactlyOnce(run: seq<D.Sys>, acts: seq<D.Act>, n: nat, k: nat)
    requires D.IsRun(run, acts) && n < |run| && k < |run[n].drains|
    ensures var (d, heap) := (run[n].drains[k], run[n].guest.reg.heap);
      && d.cursor == d.from + |d.got|
      && (forall i :: 0 <= i < |d.got| ==>
            && d.got[i].event.sequence == d.from + 1 + i
            && Named(heap, d.got[i].h, d.id) && d.from + i < |heap[d.got[i].h].history|
            && Delivers(d.got[i].event.payload, heap[d.got[i].h].history[d.from + i]))
      && (forall i :: 0 <= i < |d.got| && d.got[i].event.payload.TerminalResult? ==>
            i == |d.got| - 1 && d.pc.Returned? && d.pc.how.Terminal?)
      && (d.pc.Returned? && d.pc.how.Terminal? ==>
            && d.got != []
            && d.got[|d.got| - 1].event.payload == TerminalResult(d.pc.how.exitCode, d.pc.how.message))
  {
    hide D.IsRun;
    DrainHolds(run, acts, n, k);
    hide ShapedHeap, AnchorInv, SessionInv;
    var (d, heap) := (run[n].drains[k], run[n].guest.reg.heap);
    assert GotInv(heap, d) && EndInv(d);
    assert forall i :: 0 <= i < |d.got| ==> IsEventOf(heap[d.got[i].h], d.got[i].event);
  }

  /** All that the drain received came from execution h. */
  predicate FromOnly(d: D.Drain, h: nat) {
    forall i :: 0 <= i < |d.got| ==> d.got[i].h == h
  }

  /** An id that was accepted once leads every stream to the same execution. */
  lemma SoleMeansOnly(run: seq<D.Sys>, acts: seq<D.Act>, n: nat, k: nat, h: nat)
    requires D.IsRun(run, acts) && n < |run| && k < |run[n].drains|
    requires SoleExecution(run[n].guest.reg.heap, h, run[n].drains[k].id)
    ensures FromOnly(run[n].drains[k], h)
    ensures run[n].drains[k].pc.Attached? ==> run[n].drains[k].pc.session.h == h
  {
    hide D.IsRun;
    DrainHolds(run, acts, n, k);
    hide ShapedHeap, AnchorInv, EndInv, IsEventOf;
    var (d, heap) := (run[n].drains[k], run[n].guest.reg.heap);
    assert forall i :: 0 <= i < |d.got| ==> Named(heap, d.got[i].h, d.id);
  }

  /**
   What a drain received from one execution is that execution's log from the cursor on, and a terminal
   outcome means that log was processed to its very end.
   */
  lemma ProcessedTheLog(run: seq<D.Sys>, acts: seq<D.Act>, n: nat, k: nat, h: nat)
    requires D.IsRun(run, acts) && n < |run| && k < |run[n].drains|
    requires h < |run[n].guest.reg.heap| && FromOnly(run[n].drains[k], h)
    ensures var (d, log) := (run[n].drains[k], run[n].guest.reg.heap[h].history);
      && (d.cursor <= |log| || d.got == [])
      && (forall i :: 0 <= i < |d.got| ==>
            d.from + i < |log| && Delivers(d.got[i].event.payload, log[d.from + i]))
      && (d.pc.Returned? && d.pc.how.Terminal? ==>
            d.cursor == |log| && !run[n].guest.reg.heap[h].running)
  {
    ProcessedExactlyOnce(run, acts, n, k);
    hide D.IsRun;
    DrainHolds(run, acts, n, k);
    hide AnchorInv, SessionInv, GotInv, EndInv;
    var d := run[n].drains[k];
    var e := run[n].guest.reg.heap[h];
    assert LogShape(e);
    if d.pc.Returned? && d.pc.how.Terminal? {
      ShapeInWords(e);
      assert IsTerminal(e.history[d.from + |d.got| - 1]);
    }
  }

  /**
   The terminal is always ahead of where the cursor came from: until a drain returns with a terminal,
   the cursor it would pass to JobStatus is below the terminal of the execution that it read last, or
   that a restarted host listed as running.
   */
  lemma TerminalStaysAhead(run: seq<D.Sys>, acts: seq<D.Act>, n: nat, k: nat)
    requires D.IsRun(run, acts) && n < |run| && k < |run[n].drains|
    requires run[n].drains[k].cursor > 0
    requires !(run[n].drains[k].pc.Returned? && run[n].drains[k].pc.how.Terminal?)
    ensures var (d, heap) := (run[n].drains[k], run[n].guest.reg.heap);
      && d.anchor.Some? && Named(heap, d.anchor.value, d.id)
      && var log := heap[d.anchor.value].history;
         d.cursor <= |log| && forall i :: 0 <= i < |log| && IsTerminal(log[i]) ==> d.cursor < i + 1
  {
    hide D.IsRun;
    DrainHolds(run, acts, n, k);
    hide GotInv, EndInv, SessionInv;
    ShapeInWords(run[n].guest.reg.heap[run[n].drains[k].anchor.value]);
  }

  /** So with an id accepted once a resumed drain can never skip past the terminal. */
  lemma CursorIsBeforeTheTerminal(run: seq<D.Sys>, acts: seq<D.Act>, n: nat, k: nat, h: nat)
    requires D.IsRun(run, acts) && n < |run| && k < |run[n].drains|
    requires SoleExecution(run[n].guest.reg.heap, h, run[n].drains[k].id)
    requires !(run[n].drains[k].pc.Returned? && run[n].drains[k].pc.how.Terminal?)
    ensures var (d, log) := (run[n].drains[k], run[n].guest.reg.heap[h].history);
      d.cursor <= |log| && forall i :: 0 <= i < |log| && IsTerminal(log[i]) ==> d.cursor < i + 1
  {
    if run[n].drains[k].cursor > 0 { TerminalStaysAhead(run, acts, n, k); }
  }

  /** A stream of a stopped execution, read until it has nothing more to send. */
  function ReadAll(s: D.Session, e: Exec): D.Session
    requires !e.running
    decreases |e.history| + 1 - s.next
  {
    if D.StreamEnabled(s, e, D.StreamRead) then ReadAll(D.StreamApply(s, e, D.StreamRead), e) else s
  }

  lemma {:induction false} ReadAllDelivers(s: D.Session, e: Exec)
    requires LogShape(e) && !e.running && s.next > 0 && s.slept.None? && !s.ended
    requires forall i :: 0 <= i < |s.wire| ==> !s.wire[i].payload.TerminalResult?
    ensures var wire := ReadAll(s, e).wire;
      && |wire| == |s.wire| + (if s.next <= |e.history| then |e.history| + 1 - s.next else 0)
      && (H.EndsInTerminal(wire) <==> s.next <= |e.history|)
    decreases |e.history| + 1 - s.next
  {
    if s.next <= |e.history| {
      var s' := D.StreamApply(s, e, D.StreamRead);
      ShapeInWords(e);
      assert IsTerminal(e.history[|e.history| - 1]);
      assert s'.ended <==> IsTerminal(e.history[s.next - 1]);
      hide LogShape;
      if !s'.ended {
        ReadAllDelivers(s', e);
      } else {
        assert s.next == |e.history|;
      }
    }
  }

  /**
   Why the cursor must stay below the terminal: a stream opened on a stopped execution delivers the
   terminal if and only if the cursor it is opened at is before it.
   */
  lemma ReopenedStreamReachesTerminal(run: seq<D.Sys>, acts: seq<D.Act>, n: nat, h: nat, cursor: nat)
    requires D.IsRun(run, acts) && n < |run| && h < |run[n].guest.reg.heap| && !run[n].guest.reg.heap[h].running
    ensures var e := run[n].guest.reg.heap[h];
      H.EndsInTerminal(ReadAll(D.Session(h, cursor + 1, [], None, false, cursor, 0), e).wire) <==> TerminalAhead(e, cursor)
  {
    hide D.IsRun;
    Reachable(run, acts, n);
    GuestIsShaped(run[n].guest);
    hide SysInv;
    ReadAllDelivers(D.Session(h, cursor + 1, [], None, false, cursor, 0), run[n].guest.reg.heap[h]);
  }

  /**
   No lost wake-up for a subscriber: while it sleeps on the log's current notify generation there is
   no event it has not read, and the execution is still running.
   */
  lemma SleepingSubscriberMissesNothing(run: seq<D.Sys>, acts: seq<D.Act>, n: nat, k: nat)
    requires D.IsRun(run, acts) && n < |run| && k < |run[n].drains| && run[n].drains[k].pc.Attached?
    ensures var s := run[n].drains[k].pc.session;
      && s.h < |run[n].guest.reg.heap|
      && var e := run[n].guest.reg.heap[s.h];
         !D.StreamAwake(s, e) ==> s.next > |e.history| && e.running && !s.ended
  {
    hide D.IsRun;
    DrainHolds(run, acts, n, k);
    hide GotInv, EndInv, AnchorInv, ShapedHeap, IsEventOf;
  }

  /**
   No listing reports one id twice or two running executions on one slot, though its entries are read
   at different times.
   */
  lemma ListedEntriesDiffer(run: seq<D.Sys>, acts: seq<D.Act>, n: nat, j: nat, a: nat, b: nat)
    requires D.IsRun(run, acts) && n < |run| && j < |run[n].listings|
    requires a < b < |run[n].listings[j].entries|
    ensures var entries := run[n].listings[j].entries;
      && entries[a].id != entries[b].id
      && (entries[a].running && entries[b].running ==> entries[a].slot != entries[b].slot)
  {
    hide D.IsRun, GuestInv, DrainsInv;
    Reachable(run, acts, n);
    var l := run[n].listings[j];
    assert ListingInv(run[n].guest.reg.heap, l);
    assert EntryInv(run[n].guest.reg.heap[l.handles[a]], l.entries[a]);
    assert EntryInv(run[n].guest.reg.heap[l.handles[b]], l.entries[b]);
  }
}
