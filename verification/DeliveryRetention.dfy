/**
 What the end of retention does to a drain that reconnects: when its cursor can be past the terminal of
 the log it is about to open, exactly, and a run in which it is.
 */
module DeliveryRetention {
  import opened Wrappers
  import opened EventLog
  import opened RegistrySections
  import opened GuestRuns
  import opened GuestLogs
  import opened GuestAccounts
  import opened GuestSafety
  import opened GuestExits
  import opened GuestHistory
  import opened DeliverySafety
  import H = HostDrain
  import D = Delivery

  /** The id still leads to the execution that the drain's cursor came from: its retention has not ended. */
  predicate AnchorRetained(r: Reg, d: D.Drain) {
    d.anchor.Some? && d.id in r.byId && r.byId[d.id] == d.anchor.value
  }

  /** The drain's stream is over, everything it had to send was sent, and no terminal was among it. */
  predicate Stranded(heap: seq<Exec>, d: D.Drain) {
    && d.pc.Attached? && d.pc.session.h < |heap|
    && !heap[d.pc.session.h].running && d.pc.session.next > |heap[d.pc.session.h].history|
    && forall i :: 0 <= i < |d.pc.session.wire| ==> !d.pc.session.wire[i].payload.TerminalResult?
  }

  /** The events that a reader has read and not yet appended. */
  function Owed(r: Reader): nat {
    if r.pc.Holding? || r.pc.Failing? then 1 else 0
  }

  /** The least length that an execution's log can end with. */
  function Shortest(g: Guest, h: nat): nat
    requires Has(g, h)
  {
    ShortestOf(g.reg.heap[h], g.tasks[h])
  }

  function ShortestOf(e: Exec, t: Task): nat {
    if e.running then |e.history| + Owed(t.stdout) + Owed(t.stderr) + 2 else |e.history|
  }

  predicate Longer(g: Guest, h: nat, cursor: nat) {
    Has(g, h) && cursor < Shortest(g, h)
  }

  // ----- a drain whose cursor's execution is retained ----------------------------------------

  /** The stream of a drain that read before is on that execution or on a later one of the same id. */
  predicate SessionIsLatest(d: D.Drain) {
    d.pc.Attached? && d.anchor.Some? ==> d.anchor.value <= d.pc.session.h
  }

  predicate AnchorNamed(heap: seq<Exec>, d: D.Drain) {
    d.anchor.Some? ==> Named(heap, d.anchor.value, d.id)
  }

  lemma StaysLatest(r: Reg, d: D.Drain, a: D.DrainAct)
    requires IdsInv(r) && DrainInv(r.heap, d) && D.DrainEnabled(r, d, a)
    requires SessionIsLatest(d) && AnchorNamed(r.heap, d)
    ensures SessionIsLatest(D.DrainApply(r, d, a)) && AnchorNamed(r.heap, D.DrainApply(r, d, a))
  {
    hide GotInv, EndInv, AnchorInv, IsEventOf, D.StreamEnabled, D.EventsOf;
  }

  lemma NamedLater(s: D.Sys, a: D.Act, k: nat)
    requires SysInv(s) && D.Enabled(s, a) && k < |s.drains| && AnchorNamed(s.guest.reg.heap, s.drains[k])
    ensures AnchorNamed(D.Apply(s, a).guest.reg.heap, s.drains[k])
  {
    if a.GuestAct? {
      ActIsLater(s.guest, a.guest);
      hide SysInv, GuestRuns.Apply, GuestRuns.Enabled;
    }
  }

  lemma NewDrainIsLatest(s: D.Sys, a: D.Act, k: nat)
    requires SysInv(s) && D.Enabled(s, a) && |s.drains| <= k < |D.Apply(s, a).drains|
    ensures var s' := D.Apply(s, a); SessionIsLatest(s'.drains[k]) && AnchorNamed(s'.guest.reg.heap, s'.drains[k])
  {
    if a.Adopt? {
      var l := s.listings[a.j];
      hide GuestInv, DrainsInv;
      assert ListingInv(s.guest.reg.heap, l);
      assert EntryInv(s.guest.reg.heap[l.handles[a.i]], l.entries[a.i]);
    }
    hide SysInv;
  }

  lemma StepStaysLatest(s: D.Sys, a: D.Act, k: nat)
    requires SysInv(s) && D.Enabled(s, a) && k < |D.Apply(s, a).drains|
    requires k < |s.drains| ==> SessionIsLatest(s.drains[k]) && AnchorNamed(s.guest.reg.heap, s.drains[k])
    ensures var s' := D.Apply(s, a); SessionIsLatest(s'.drains[k]) && AnchorNamed(s'.guest.reg.heap, s'.drains[k])
  {
    hide GuestInv, DrainInv, ListingsInv, IdsInv, SessionIsLatest, AnchorNamed, D.DrainApply, D.DrainEnabled;
    if k >= |s.drains| {
      NewDrainIsLatest(s, a, k);
    } else if a.DrainStep? && a.n == k {
      RegParts(s.guest);
      StaysLatest(s.guest.reg, s.drains[k], a.drain);
    } else {
      NamedLater(s, a, k);
    }
  }

  lemma {:induction false} LatestReachable(run: seq<D.Sys>, acts: seq<D.Act>, n: nat, k: nat)
    requires D.IsRun(run, acts) && n < |run| && k < |run[n].drains|
    ensures SessionIsLatest(run[n].drains[k]) && AnchorNamed(run[n].guest.reg.heap, run[n].drains[k])
  {
    hide SysInv, D.Enabled, D.Apply, SessionIsLatest, AnchorNamed;
    if n > 0 {
      assert D.Enabled(run[n - 1], acts[n - 1]) && run[n - 1 + 1] == D.Apply(run[n - 1], acts[n - 1]);
      DeliverySafety.Reachable(run, acts, n - 1);
      if k < |run[n - 1].drains| { LatestReachable(run, acts, n - 1, k); }
      StepStaysLatest(run[n - 1], acts[n - 1], k);
    }
  }

  /** On a stream opened before the end of a log, the terminal is on the wire before nothing is left. */
  lemma LongIsNotStranded(heap: seq<Exec>, d: D.Drain)
    requires ShapedHeap(heap) && d.pc.Attached? && SessionInv(heap, d.id, d.pc.session, d.cursor)
    requires !heap[d.pc.session.h].running ==> d.cursor < |heap[d.pc.session.h].history|
    ensures !Stranded(heap, d)
  {
    var s := d.pc.session;
    var e := heap[s.h];
    if !e.running && s.next > |e.history| {
      assert LogShape(e);
      var last := |s.wire| - 1;
      assert s.wire[last].sequence == s.next - 1 && IsEventOf(e, s.wire[last]);
      hide SessionInv;
      assert s.wire[last].payload.TerminalResult?;
    }
  }

  /** A stopped execution's log has three events or more. */
  lemma ThreeAtLeast(heap: seq<Exec>, h: nat)
    requires ShapedHeap(heap) && h < |heap|
    ensures !heap[h].running ==> |heap[h].history| >= 3
    ensures heap[h].running ==> |heap[h].history| >= 1
  {
    assert LogShape(heap[h]);
  }

  /**
   No resumed drain skips past the terminal while its id is retained, in any run: if the id still leads to
   the execution the cursor came from, or the stream under way is on that execution, or the cursor is below
   3, then the stream does not end without the terminal.
   */
  lemma RetainedIsNeverStranded(run: seq<D.Sys>, acts: seq<D.Act>, n: nat, k: nat)
    requires D.IsRun(run, acts) && n < |run| && k < |run[n].drains|
    requires var d := run[n].drains[k];
      d.cursor < 3 || AnchorRetained(run[n].guest.reg, d) || (d.pc.Attached? && d.anchor == Some(d.pc.session.h))
    ensures !Stranded(run[n].guest.reg.heap, run[n].drains[k])
  {
    var (r, d) := (run[n].guest.reg, run[n].drains[k]);
    if d.pc.Attached? {
      LatestReachable(run, acts, n, k);
      DeliverySafety.Reachable(run, acts, n);
      DrainHolds(run, acts, n, k);
      RegParts(run[n].guest);
      hide D.IsRun, SysInv, RunningInv, GotInv, IsEventOf, ShapedHeap;
      ThreeAtLeast(r.heap, d.pc.session.h);
      assert d.anchor.Some? && d.cursor >= 3 ==> d.anchor.value == d.pc.session.h;
      LongIsNotStranded(r.heap, d);
    }
  }

  /**
   A stream that the guest ended carries the terminal last on the wire, under the same condition, which an
   id accepted once always meets.
   */
  lemma StreamEndsBehindTheTerminal(run: seq<D.Sys>, acts: seq<D.Act>, n: nat, k: nat)
    requires D.IsRun(run, acts) && n < |run| && k < |run[n].drains|
    requires run[n].drains[k].pc.Attached? && run[n].drains[k].pc.session.ended
    requires var d := run[n].drains[k];
      || d.cursor < 3 || AnchorRetained(run[n].guest.reg, d) || d.anchor == Some(d.pc.session.h)
      || SoleExecution(run[n].guest.reg.heap, d.pc.session.h, d.id)
    ensures H.EndsInTerminal(run[n].drains[k].pc.session.wire)
  {
    var (heap, d) := (run[n].guest.reg.heap, run[n].drains[k]);
    LatestReachable(run, acts, n, k);
    DrainHolds(run, acts, n, k);
    hide D.IsRun, GotInv, EndInv, ShapedHeap, IsEventOf, TerminalAhead;
    assert d.anchor.Some? && SoleExecution(heap, d.pc.session.h, d.id) ==> d.anchor == Some(d.pc.session.h);
    RetainedIsNeverStranded(run, acts, n, k);
  }

  /** The open of a retained id meets the execution the cursor came from, and its terminal is ahead. */
  lemma RetainedOpenIsAhead(run: seq<D.Sys>, acts: seq<D.Act>, n: nat, k: nat)
    requires D.IsRun(run, acts) && n < |acts| && k < |run[n].drains|
    requires acts[n] == D.DrainStep(k, D.OpenSucceeds) && run[n].drains[k].cursor > 0
    requires AnchorRetained(run[n].guest.reg, run[n].drains[k])
    ensures k < |run[n + 1].drains|
    ensures var (d, d', heap) := (run[n].drains[k], run[n + 1].drains[k], run[n + 1].guest.reg.heap);
      && d'.pc.Attached? && d.anchor == Some(d'.pc.session.h) && d'.cursor == d.cursor
      && d'.pc.session.h < |heap| && TerminalAhead(heap[d'.pc.session.h], d'.cursor)
  {
    DrainHolds(run, acts, n, k);
    assert D.Enabled(run[n], acts[n]) && run[n + 1] == D.Apply(run[n], acts[n]);
    hide D.IsRun, SessionInv, GotInv, ShapedHeap;
  }
  // ----- what may still happen to a drain about to open --------------------------------------

  /** Drain k receives nothing, and execution `anchor` is not forgotten. */
  predicate Spares(a: D.Act, k: nat, anchor: Option<nat>) {
    && !(a.DrainStep? && a.n == k && a.drain.Receive?)
    && !(a.GuestAct? && a.guest.RetentionEnds? && anchor == Some(a.guest.h))
  }

  /** A continuation of a run whose acts spare the cursor of drain k and the execution it came from. */
  ghost predicate Future(states: seq<D.Sys>, acts: seq<D.Act>, k: nat, anchor: Option<nat>) {
    && |states| == |acts| + 1
    && forall n :: 0 <= n < |acts| ==>
         D.Enabled(states[n], acts[n]) && Spares(acts[n], k, anchor) && states[n + 1] == D.Apply(states[n], acts[n])
  }

  /** Some continuation strands drain k. */
  ghost predicate CanStrand(s: D.Sys, k: nat)
    requires k < |s.drains|
  {
    exists states: seq<D.Sys>, acts: seq<D.Act> :: Strands(states, acts, s, k)
  }

  ghost predicate Strands(states: seq<D.Sys>, acts: seq<D.Act>, s: D.Sys, k: nat)
    requires k < |s.drains|
  {
    && Future(states, acts, k, s.drains[k].anchor) && states[0] == s
    && k < |states[|acts|].drains| && Stranded(states[|acts|].guest.reg.heap, states[|acts|].drains[k])
  }

  /** The id was forgotten and can be accepted again, or leads to a log that can end at the cursor. */
  predicate Exposed(g: Guest, d: D.Drain) {
    && d.cursor >= 3 && !AnchorRetained(g.reg, d)
    && (!g.reg.draining || (d.id in g.reg.byId && Has(g, g.reg.byId[d.id]) && Shortest(g, g.reg.byId[d.id]) <= d.cursor))
  }

  // ----- a drain that is not exposed ----------------------------------------------------------

  /** Every log that the drain has open, can open now or could find accepted later ends behind its cursor. */
  predicate Sheltered(s: D.Sys, k: nat, was: D.Drain) {
    && k < |s.drains| && s.drains[k].id == was.id && s.drains[k].cursor == was.cursor && s.drains[k].anchor == was.anchor
    && (s.drains[k].pc.Attached? ==> Longer(s.guest, s.drains[k].pc.session.h, was.cursor))
    && (was.id in s.guest.reg.byId ==> Longer(s.guest, s.guest.reg.byId[was.id], was.cursor))
    && (s.guest.reg.draining || was.cursor < 3 || AnchorRetained(s.guest.reg, was))
  }

  lemma ReaderOwes(e: Exec, t: Task, stream: Stream, a: ReaderAct)
    requires PcInv(e, t) && ReaderEnabled(ReaderOf(t, stream), a)
    ensures ShortestOf(ReaderExec(e, ReaderOf(t, stream), stream, a), ReaderTask(t, stream, a)) >= ShortestOf(e, t)
  {
  }

  lemma OwnActGrows(g: Guest, a: GuestRuns.Act, h: nat)
    requires Has(g, h) && PcInv(g.reg.heap[h], g.tasks[h]) && Enabled(g, a) && ActsOn(a, h)
    ensures Has(Apply(g, a), h) && Shortest(Apply(g, a), h) >= Shortest(g, h)
  {
    hide WellFormed;
    if a.ReaderStep? {
      ReaderOwes(g.reg.heap[h], g.tasks[h], a.stream, a.read);
      hide ReaderExec, ReaderTask, ShortestOf, PcInv;
    }
  }

  /** No act brings an execution's shortest ending nearer. */
  lemma ShortestGrows(g: Guest, a: GuestRuns.Act, h: nat)
    requires GuestInv(g) && Enabled(g, a) && Has(g, h)
    ensures Has(Apply(g, a), h) && Shortest(Apply(g, a), h) >= Shortest(g, h)
  {
    At(g, h);
    hide GuestInv, ExecInv, Apply, Enabled, ShortestOf;
    if ActsOn(a, h) { OwnActGrows(g, a, h); } else { OthersKeepTheirOwn(g, a, h); }
  }

  /** What an act of the guest can do to the entry of an id: it is new, or as before, or its retention ended. */
  predicate EntryStep(g: Guest, g': Guest, id: string) {
    id in g'.reg.byId ==>
      || (id in g.reg.byId && g'.reg.byId[id] == g.reg.byId[id])
      || (id !in g.reg.byId && !g.reg.draining && Has(g', g'.reg.byId[id]) && Shortest(g', g'.reg.byId[id]) == 3)
  }

  lemma CallEntry(g: Guest, c: nat, x: CallAct, id: string)
    requires |g.tasks| == |g.reg.heap| && WellFormed(g.reg) && CallEnabled(g, c, x)
    ensures EntryStep(g, CallApply(g, c, x), id)
    ensures id in g.reg.byId ==> id in CallApply(g, c, x).reg.byId
    ensures CallApply(g, c, x).reg.draining == g.reg.draining
  {
    hide WellFormed;
  }

  lemma EntryAfter(g: Guest, a: GuestRuns.Act, id: string)
    requires |g.tasks| == |g.reg.heap| && Enabled(g, a)
    ensures EntryStep(g, Apply(g, a), id)
    ensures g.reg.draining ==> Apply(g, a).reg.draining
    ensures id in g.reg.byId && id !in Apply(g, a).reg.byId ==> a == RetentionEnds(g.reg.byId[id])
  {
    if a.CallStep? {
      CallEntry(g, a.c, a.call, id);
      hide EntryStep, CallApply;
    } else {
      hide WellFormed, Shortest, ReaderExec, ReaderTask, HeartbeatOn, Reap, Cancel, CompleteExec;
    }
  }

  lemma GuestActShelters(s: D.Sys, k: nat, was: D.Drain, a: GuestRuns.Act)
    requires GuestInv(s.guest) && Sheltered(s, k, was) && Enabled(s.guest, a) && Spares(D.GuestAct(a), k, was.anchor)
    ensures Sheltered(D.Apply(s, D.GuestAct(a)), k, was)
  {
    assert |s.guest.tasks| == |s.guest.reg.heap|;
    EntryAfter(s.guest, a, was.id);
    if s.drains[k].pc.Attached? { ShortestGrows(s.guest, a, s.drains[k].pc.session.h); }
    if was.id in s.guest.reg.byId { ShortestGrows(s.guest, a, s.guest.reg.byId[was.id]); }
    hide GuestInv, Shortest, Apply, Enabled;
  }

  lemma DrainActShelters(s: D.Sys, k: nat, was: D.Drain, a: D.DrainAct)
    requires Sheltered(s, k, was) && D.DrainEnabled(s.guest.reg, s.drains[k], a) && !a.Receive?
    ensures Sheltered(D.Apply(s, D.DrainStep(k, a)), k, was)
  {
    hide Shortest, D.EventsOf;
  }

  lemma ActShelters(s: D.Sys, k: nat, was: D.Drain, a: D.Act)
    requires SysInv(s) && Sheltered(s, k, was) && D.Enabled(s, a) && Spares(a, k, was.anchor)
    ensures Sheltered(D.Apply(s, a), k, was)
  {
    hide GuestInv, DrainsInv, ListingsInv;
    if a.GuestAct? {
      GuestActShelters(s, k, was, a.guest);
    } else if a.DrainStep? && a.n == k {
      DrainActShelters(s, k, was, a.drain);
    } else {
      hide Longer, AnchorRetained, D.DrainApply, D.DrainEnabled;
    }
  }

  lemma {:induction false} FutureShelters(states: seq<D.Sys>, acts: seq<D.Act>, k: nat, was: D.Drain, n: nat)
    requires Future(states, acts, k, was.anchor) && n <= |acts|
    requires SysInv(states[0]) && Sheltered(states[0], k, was)
    ensures SysInv(states[n]) && Sheltered(states[n], k, was)
  {
    hide SysInv, Sheltered, D.Enabled, D.Apply, Spares;
    if n > 0 {
      FutureShelters(states, acts, k, was, n - 1);
      assert D.Enabled(states[n - 1], acts[n - 1]) && states[n - 1 + 1] == D.Apply(states[n - 1], acts[n - 1]);
      ActShelters(states[n - 1], k, was, acts[n - 1]);
      StepKeeps(states[n - 1], acts[n - 1]);
    }
  }

  lemma ShelteredIsNotStranded(s: D.Sys, k: nat, was: D.Drain)
    requires SysInv(s) && Sheltered(s, k, was)
    ensures !Stranded(s.guest.reg.heap, s.drains[k])
  {
    var d := s.drains[k];
    if d.pc.Attached? {
      assert DrainInv(s.guest.reg.heap, d);
      RegParts(s.guest);
      hide GuestInv, GotInv, IsEventOf, ShapedHeap, DrainsInv, ListingsInv;
      LongIsNotStranded(s.guest.reg.heap, d);
    }
  }

  lemma ShortestIsThree(g: Guest, h: nat)
    requires GuestInv(g) && Has(g, h)
    ensures Shortest(g, h) >= 3
  {
    At(g, h);
    hide GuestInv, StdoutInv, StderrInv, TerminalInv;
  }

  lemma UnexposedIsSheltered(s: D.Sys, k: nat)
    requires SysInv(s) && k < |s.drains| && s.drains[k].pc.Opening? && !Exposed(s.guest, s.drains[k])
    ensures Sheltered(s, k, s.drains[k])
  {
    var (g, d) := (s.guest, s.drains[k]);
    assert DrainInv(g.reg.heap, d);
    RegParts(g);
    hide SessionInv, GotInv, EndInv, DrainsInv, ListingsInv;
    if d.id in g.reg.byId {
      assert Has(g, g.reg.byId[d.id]) by { hide RegInv, CallsInv; }
      ShortestIsThree(g, g.reg.byId[d.id]);
    }
    hide GuestInv;
  }

  lemma FutureHasItsLength(states: seq<D.Sys>, acts: seq<D.Act>, k: nat, anchor: Option<nat>)
    requires Future(states, acts, k, anchor)
    ensures |states| == |acts| + 1
  {
  }

  lemma UnexposedNeverStrands(s: D.Sys, k: nat)
    requires SysInv(s) && k < |s.drains| && s.drains[k].pc.Opening? && !Exposed(s.guest, s.drains[k])
    ensures !CanStrand(s, k)
  {
    hide SysInv, Stranded, Future, Exposed;
    UnexposedIsSheltered(s, k);
    forall states: seq<D.Sys>, acts: seq<D.Act> | Strands(states, acts, s, k)
      ensures false
    {
      FutureHasItsLength(states, acts, k, s.drains[k].anchor);
      FutureShelters(states, acts, k, s.drains[k], |acts|);
      ShelteredIsNotStranded(states[|acts|], k, s.drains[k]);
    }
  }
}
