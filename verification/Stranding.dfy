/**
 The futures in which a drain is stranded, built act by act: an id whose execution was forgotten is accepted
 again, the new execution ends, and the drain opens its log at the old cursor.
 */
module Stranding {
  import opened Wrappers
  import opened EventLog
  import opened RegistrySections
  import opened GuestRuns
  import opened GuestLogs
  import opened GuestAccounts
  import opened GuestSafety
  import opened GuestExits
  import opened GuestHistory
  import opened DeliverySafety
  import opened DeliveryRetention
  import D = Delivery

  /** A future whose last state satisfies what every run keeps. */
  ghost predicate Ongoing(states: seq<D.Sys>, acts: seq<D.Act>, k: nat, anchor: Option<nat>) {
    && Future(states, acts, k, anchor) && SysInv(states[|acts|]) && LifeInv(states[|acts|].guest)
  }

  lemma LifeKept(s: D.Sys, a: D.Act)
    requires SysInv(s) && LifeInv(s.guest) && D.Enabled(s, a)
    ensures SysInv(D.Apply(s, a)) && LifeInv(D.Apply(s, a).guest)
  {
    hide LifeInv, SysInv;
    StepKeeps(s, a);
    if a.GuestAct? { ActLife(s.guest, a.guest); }
  }

  lemma FutureGrows(states: seq<D.Sys>, acts: seq<D.Act>, k: nat, anchor: Option<nat>, a: D.Act)
    requires Future(states, acts, k, anchor) && D.Enabled(states[|acts|], a) && Spares(a, k, anchor)
    ensures Future(states + [D.Apply(states[|acts|], a)], acts + [a], k, anchor)
  {
    var longer, more := states + [D.Apply(states[|acts|], a)], acts + [a];
    hide D.Enabled, D.Apply, Spares;
    forall n | 0 <= n < |more|
      ensures D.Enabled(longer[n], more[n]) && Spares(more[n], k, anchor) && longer[n + 1] == D.Apply(longer[n], more[n])
    {
      assert n < |acts| ==> longer[n] == states[n] && more[n] == acts[n] && longer[n + 1] == states[n + 1];
    }
  }

  /** The future goes on with one more act. */
  lemma Then(states: seq<D.Sys>, acts: seq<D.Act>, k: nat, anchor: Option<nat>, a: D.Act)
    returns (longer: seq<D.Sys>, more: seq<D.Act>)
    requires Ongoing(states, acts, k, anchor) && D.Enabled(states[|acts|], a) && Spares(a, k, anchor)
    ensures Ongoing(longer, more, k, anchor) && longer[0] == states[0]
    ensures longer[|more|] == D.Apply(states[|acts|], a)
  {
    FutureHasItsLength(states, acts, k, anchor);
    hide SysInv, LifeInv, D.Enabled, D.Apply, Spares, Future;
    LifeKept(states[|acts|], a);
    FutureGrows(states, acts, k, anchor, a);
    longer, more := states + [D.Apply(states[|acts|], a)], acts + [a];
  }

  // ----- an execution comes to its end -------------------------------------------------------

  /** How many turns are left until execution h stops when nothing more is read. */
  function ReaderTurns(r: Reader): nat {
    match r.pc
    case Holding(_) => 2
    case Reading => 1
    case Failing(_) => 1
    case Done(_) => 0
  }

  function Turns(t: Task): nat {
    ReaderTurns(t.stdout) + ReaderTurns(t.stderr)
    + if t.sup.Waiting? then (if t.report.None? then 3 else 2) else if t.sup.Joining? then 1 else 0
  }

  function LastRead(r: Reader): ReaderAct {
    match r.pc
    case Holding(_) => AppendRead
    case Failing(_) => AppendFailure
    case Reading => ReadEnds(Eof)
    case Done(_) => AppendRead
  }

  /** The next of those turns. */
  function Closing(t: Task, h: nat): GuestRuns.Act {
    if !t.stdout.pc.Done? then ReaderStep(h, Stdout, LastRead(t.stdout))
    else if !t.stderr.pc.Done? then ReaderStep(h, Stderr, LastRead(t.stderr))
    else if t.sup.Waiting? && t.report.None? then Deliver(h, ExitReport(0, ""))
    else if t.sup.Waiting? then StartReap(h)
    else FinishReap(h)
  }

  /** The same ids lead to the same executions, and the guest drains if it did. */
  predicate SameEntries(g: Guest, g': Guest) {
    && g'.reg.byId == g.reg.byId && g'.reg.draining == g.reg.draining
    && |g'.reg.heap| == |g.reg.heap| && |g'.tasks| == |g.tasks|
  }

  lemma ReaderCloses(e: Exec, t: Task, stream: Stream)
    requires e.running && !ReaderOf(t, stream).pc.Done?
    ensures var a := LastRead(ReaderOf(t, stream));
      && ReaderEnabled(ReaderOf(t, stream), a)
      && var (e', t') := (ReaderExec(e, ReaderOf(t, stream), stream, a), ReaderTask(t, stream, a));
         Turns(t') < Turns(t) && ShortestOf(e', t') == ShortestOf(e, t) && e'.running && t'.sup == t.sup
  {
  }

  lemma ReaderTurn(g: Guest, h: nat, stream: Stream)
    requires WellFormed(g.reg) && Has(g, h) && g.reg.heap[h].running && !ReaderOf(g.tasks[h], stream).pc.Done?
    ensures var a := ReaderStep(h, stream, LastRead(ReaderOf(g.tasks[h], stream)));
      && Enabled(g, a)
      && var g' := Apply(g, a);
         SameEntries(g, g') && Shortest(g', h) == Shortest(g, h) && Turns(g'.tasks[h]) < Turns(g.tasks[h])
  {
    ReaderCloses(g.reg.heap[h], g.tasks[h], stream);
    hide WellFormed, ReaderExec, ReaderTask, ReaderEnabled, ReaderOf, ShortestOf, Turns, LastRead;
  }

  lemma SupervisorTurn(g: Guest, h: nat)
    requires WellFormed(g.reg) && Has(g, h) && g.reg.heap[h].running
    requires PcInv(g.reg.heap[h], g.tasks[h]) && ExitInv(g.reg.heap[h], g.tasks[h])
    requires g.tasks[h].stdout.pc.Done? && g.tasks[h].stderr.pc.Done?
    ensures var a := Closing(g.tasks[h], h);
      && Enabled(g, a)
      && var g' := Apply(g, a);
         && SameEntries(g, g') && Shortest(g', h) == Shortest(g, h)
         && (g'.reg.heap[h].running ==> Turns(g'.tasks[h]) < Turns(g.tasks[h]))
  {
    hide WellFormed;
  }

  lemma ClosingTurn(g: Guest, h: nat)
    requires WellFormed(g.reg) && Has(g, h) && g.reg.heap[h].running
    requires PcInv(g.reg.heap[h], g.tasks[h]) && ExitInv(g.reg.heap[h], g.tasks[h])
    ensures var a := Closing(g.tasks[h], h);
      && Enabled(g, a) && !a.RetentionEnds?
      && var g' := Apply(g, a);
         && SameEntries(g, g') && Shortest(g', h) == Shortest(g, h)
         && (g'.reg.heap[h].running ==> Turns(g'.tasks[h]) < Turns(g.tasks[h]))
  {
    hide WellFormed, PcInv, ExitInv, Apply, Enabled, Turns, Shortest, LastRead;
    var t := g.tasks[h];
    if !t.stdout.pc.Done? {
      ReaderTurn(g, h, Stdout);
    } else if !t.stderr.pc.Done? {
      ReaderTurn(g, h, Stderr);
    } else {
      SupervisorTurn(g, h);
    }
  }

  /** What a closing turn needs to know of execution h. */
  lemma Closable(s: D.Sys, h: nat)
    requires SysInv(s) && LifeInv(s.guest) && Has(s.guest, h)
    ensures WellFormed(s.guest.reg) && PcInv(s.guest.reg.heap[h], s.guest.tasks[h])
    ensures ExitInv(s.guest.reg.heap[h], s.guest.tasks[h]) && s.guest.reg.heap[h].id != ""
    ensures Registered(s.guest.reg, h) <==> !s.guest.tasks[h].sup.Settled?
  {
    assert LifeAt(s.guest, h);
    RegParts(s.guest);
    At(s.guest, h);
    hide DrainsInv, ListingsInv, ExecInv, RunningInv, LifeInv, GuestInv;
  }

  predicate Closer(g: Guest, g': Guest, h: nat)
    requires Has(g, h)
  {
    && SameEntries(g, g') && Has(g', h) && Shortest(g', h) == Shortest(g, h)
    && (g'.reg.heap[h].running ==> Turns(g'.tasks[h]) < Turns(g.tasks[h]))
  }

  lemma CloseOnce(states: seq<D.Sys>, acts: seq<D.Act>, k: nat, anchor: Option<nat>, h: nat)
    returns (longer: seq<D.Sys>, more: seq<D.Act>)
    requires Ongoing(states, acts, k, anchor) && Has(states[|acts|].guest, h) && states[|acts|].guest.reg.heap[h].running
    ensures Ongoing(longer, more, k, anchor) && longer[0] == states[0] && longer[|more|].drains == states[|acts|].drains
    ensures Closer(states[|acts|].guest, longer[|more|].guest, h)
  {
    hide SysInv, LifeInv, Apply, Enabled, Future, Closing, PcInv, ExitInv, Turns, Registered, Shortest;
    OngoingHasItsLength(states, acts, k, anchor);
    var s := states[|acts|];
    Closable(s, h);
    ClosingTurn(s.guest, h);
    hide WellFormed;
    assert D.Enabled(s, D.GuestAct(Closing(s.guest.tasks[h], h)));
    longer, more := Then(states, acts, k, anchor, D.GuestAct(Closing(s.guest.tasks[h], h)));
  }

  /** A running execution can stop with its shortest log. */
  lemma {:induction false} Finish(states: seq<D.Sys>, acts: seq<D.Act>, k: nat, anchor: Option<nat>, h: nat)
    returns (longer: seq<D.Sys>, more: seq<D.Act>)
    requires Ongoing(states, acts, k, anchor) && Has(states[|acts|].guest, h)
    ensures Ongoing(longer, more, k, anchor) && longer[0] == states[0] && longer[|more|].drains == states[|acts|].drains
    ensures var (g, g') := (states[|acts|].guest, longer[|more|].guest);
      && SameEntries(g, g') && !g'.reg.heap[h].running && |g'.reg.heap[h].history| == Shortest(g, h)
    decreases states[|acts|].guest.reg.heap[h].running, Turns(states[|acts|].guest.tasks[h])
  {
    longer, more := states, acts;
    if states[|acts|].guest.reg.heap[h].running {
      hide Ongoing, Turns;
      longer, more := CloseOnce(states, acts, k, anchor, h);
      OngoingHasItsLength(longer, more, k, anchor);
      longer, more := Finish(longer, more, k, anchor, h);
      OngoingHasItsLength(longer, more, k, anchor);
    }
  }

  lemma OngoingHasItsLength(states: seq<D.Sys>, acts: seq<D.Act>, k: nat, anchor: Option<nat>)
    requires Ongoing(states, acts, k, anchor)
    ensures |states| == |acts| + 1
  {
  }
  lemma ForgetTurn(s: D.Sys, h: nat)
    requires SysInv(s) && LifeInv(s.guest) && Has(s.guest, h) && Registered(s.guest.reg, h) && !s.guest.reg.heap[h].running
    ensures Enabled(s.guest, RetentionEnds(h))
    ensures var (r, r') := (s.guest.reg, Apply(s.guest, RetentionEnds(h)).reg);
      r'.byId == r.byId - {r.heap[h].id} && r'.draining == r.draining
  {
    hide SysInv, LifeInv, ExitInv;
    Closable(s, h);
    hide WellFormed;
  }

  /** A stopped execution that is registered can be forgotten. */
  lemma Forget(states: seq<D.Sys>, acts: seq<D.Act>, k: nat, anchor: Option<nat>, h: nat)
    returns (longer: seq<D.Sys>, more: seq<D.Act>)
    requires Ongoing(states, acts, k, anchor) && Has(states[|acts|].guest, h) && anchor != Some(h)
    requires Registered(states[|acts|].guest.reg, h) && !states[|acts|].guest.reg.heap[h].running
    ensures Ongoing(longer, more, k, anchor) && longer[0] == states[0] && longer[|more|].drains == states[|acts|].drains
    ensures var (r, r') := (states[|acts|].guest.reg, longer[|more|].guest.reg);
      r'.byId == r.byId - {r.heap[h].id} && r'.draining == r.draining
  {
    OngoingHasItsLength(states, acts, k, anchor);
    hide SysInv, LifeInv, Future;
    ForgetTurn(states[|acts|], h);
    hide Apply, Enabled;
    longer, more := Then(states, acts, k, anchor, D.GuestAct(RetentionEnds(h)));
  }

  // ----- an id is accepted again --------------------------------------------------------------

  lemma {:induction false} UpperBound(s: set<nat>) returns (n: nat)
    ensures forall x :: x in s ==> x < n
  {
    n := 0;
    if s != {} {
      var x :| x in s;
      var m := UpperBound(s - {x});
      n := if x < m then m else x + 1;
      assert forall y :: y in s ==> y == x || y in s - {x};
    }
  }

  /** Call c is at `pc`; the registry and the executions are as they were when it came. */
  predicate CallIs(g: Guest, r: Reg, tasks: seq<Task>, c: nat, call: Call) {
    g.reg == r && g.tasks == tasks && c < |g.calls| && g.calls[c] == call
  }

  /** The turn of a call that goes well. */
  function GoingWell(pc: CallPc): CallAct {
    match pc
    case Entering => Lock
    case Locked => Peek
    case Building => FinishBuild(true)
    case Built => Recheck
    case Launching => FinishLaunch(true)
    case Launched => Record(1)
    case Answered(_) => Lock
  }

  function NextPc(pc: CallPc): CallPc {
    match pc
    case Entering => Locked
    case Locked => Building
    case Building => Built
    case Built => Launching
    case Launching => Launched
    case Launched => Answered(Some(Accepted))
    case Answered(_) => Entering
  }

  lemma CallGoesOn(g: Guest, c: nat, call: Call)
    requires WellFormed(g.reg) && c < |g.calls| && g.calls[c] == call && call.id != ""
    requires Admission(g.reg, call.id, call.slot) == Accepted
    requires call.pc.Entering? ==> call.slot !in g.locks
    requires !call.pc.Launched? && !call.pc.Answered?
    ensures CallEnabled(g, c, GoingWell(call.pc))
    ensures CallIs(CallApply(g, c, GoingWell(call.pc)), g.reg, g.tasks, c, call.(pc := NextPc(call.pc)))
  {
    hide WellFormed, Admission;
  }

  lemma CallTurnThen(states: seq<D.Sys>, acts: seq<D.Act>, k: nat, anchor: Option<nat>, c: nat, call: Call)
    returns (longer: seq<D.Sys>, more: seq<D.Act>)
    requires Ongoing(states, acts, k, anchor)
    requires var g := states[|acts|].guest;
      && WellFormed(g.reg) && c < |g.calls| && g.calls[c] == call && call.id != ""
      && Admission(g.reg, call.id, call.slot) == Accepted
      && (call.pc.Entering? ==> call.slot !in g.locks)
      && !call.pc.Launched? && !call.pc.Answered?
    ensures Ongoing(longer, more, k, anchor) && longer[0] == states[0] && longer[|more|].drains == states[|acts|].drains
    ensures CallIs(longer[|more|].guest, states[|acts|].guest.reg, states[|acts|].guest.tasks, c,
                   call.(pc := NextPc(call.pc)))
  {
    hide Ongoing, CallApply, CallEnabled, Admission, WellFormed, GoingWell, NextPc;
    OngoingHasItsLength(states, acts, k, anchor);
    CallGoesOn(states[|acts|].guest, c, call);
    longer, more := Then(states, acts, k, anchor, D.GuestAct(CallStep(c, GoingWell(call.pc))));
  }

  function CallTurns(pc: CallPc): nat {
    match pc
    case Entering => 5
    case Locked => 4
    case Building => 3
    case Built => 2
    case Launching => 1
    case Launched => 0
    case Answered(_) => 0
  }

  /** A call on an admissible slot launches its process. */
  lemma {:induction false} Launch(states: seq<D.Sys>, acts: seq<D.Act>, k: nat, anchor: Option<nat>, c: nat, call: Call)
    returns (longer: seq<D.Sys>, more: seq<D.Act>)
    requires Ongoing(states, acts, k, anchor)
    requires var g := states[|acts|].guest;
      && WellFormed(g.reg) && c < |g.calls| && g.calls[c] == call && call.id != ""
      && Admission(g.reg, call.id, call.slot) == Accepted
      && (call.pc.Entering? ==> call.slot !in g.locks) && !call.pc.Answered?
    ensures Ongoing(longer, more, k, anchor) && longer[0] == states[0] && longer[|more|].drains == states[|acts|].drains
    ensures CallIs(longer[|more|].guest, states[|acts|].guest.reg, states[|acts|].guest.tasks, c, call.(pc := Launched))
    decreases CallTurns(call.pc)
  {
    hide Ongoing, WellFormed, Admission;
    longer, more := states, acts;
    OngoingHasItsLength(states, acts, k, anchor);
    if !call.pc.Launched? {
      longer, more := CallTurnThen(states, acts, k, anchor, c, call);
      OngoingHasItsLength(longer, more, k, anchor);
      longer, more := Launch(longer, more, k, anchor, c, call.(pc := NextPc(call.pc)));
      OngoingHasItsLength(longer, more, k, anchor);
    }
  }

  lemma RecordTurn(g: Guest, c: nat)
    requires WellFormed(g.reg) && c < |g.calls| && g.calls[c].pc.Launched? && |g.tasks| == |g.reg.heap|
    requires Admission(g.reg, g.calls[c].id, g.calls[c].slot) == Accepted
    ensures CallEnabled(g, c, Record(1))
    ensures var (g', id, h) := (CallApply(g, c, Record(1)), g.calls[c].id, |g.reg.heap|);
      && id in g'.reg.byId && g'.reg.byId[id] == h && Has(g', h) && Shortest(g', h) == 3
      && g'.reg.heap[h].running && |g'.reg.heap[h].history| == 1 && g'.reg.heap[h].id == id
      && |g'.reg.heap| == h + 1 && g'.reg.draining == g.reg.draining
  {
    hide WellFormed;
  }

  /** A call for a free id on a free slot comes in. */
  lemma Come(states: seq<D.Sys>, acts: seq<D.Act>, k: nat, anchor: Option<nat>, id: string)
    returns (longer: seq<D.Sys>, more: seq<D.Act>, call: Call)
    requires Ongoing(states, acts, k, anchor)
    requires var r := states[|acts|].guest.reg; !r.draining && id !in r.byId && WellFormed(r)
    ensures Ongoing(longer, more, k, anchor) && longer[0] == states[0] && longer[|more|].drains == states[|acts|].drains
    ensures call.pc.Entering? && call.id == id
    ensures var (g, g') := (states[|acts|].guest, longer[|more|].guest);
      && CallIs(g', g.reg, g.tasks, |g.calls|, call) && call.slot !in g'.locks && call.slot !in g.reg.slots
  {
    OngoingHasItsLength(states, acts, k, anchor);
    hide SysInv, LifeInv, Future;
    var g := states[|acts|].guest;
    var slot := UpperBound(g.locks.Keys + g.reg.slots.Keys);
    call := Call(id, slot, JobMeta("", 0, 0, ""), Entering);
    assert slot !in g.locks.Keys && slot !in g.reg.slots.Keys;
    longer, more := Then(states, acts, k, anchor, D.GuestAct(NewCall(id, slot, call.meta)));
    hide Ongoing;
  }

  /** Execution h of this id was just accepted. */
  predicate JustAccepted(g: Guest, id: string, h: nat) {
    && id in g.reg.byId && g.reg.byId[id] == h && Has(g, h) && Shortest(g, h) == 3
    && g.reg.heap[h].running && |g.reg.heap[h].history| == 1 && g.reg.heap[h].id == id
    && |g.reg.heap| == h + 1 && !g.reg.draining
  }

  lemma RecordThen(states: seq<D.Sys>, acts: seq<D.Act>, k: nat, anchor: Option<nat>, c: nat)
    returns (longer: seq<D.Sys>, more: seq<D.Act>)
    requires Ongoing(states, acts, k, anchor)
    requires var g := states[|acts|].guest;
      && WellFormed(g.reg) && c < |g.calls| && g.calls[c].pc.Launched? && |g.tasks| == |g.reg.heap|
      && Admission(g.reg, g.calls[c].id, g.calls[c].slot) == Accepted && !g.reg.draining
    ensures Ongoing(longer, more, k, anchor) && longer[0] == states[0] && longer[|more|].drains == states[|acts|].drains
    ensures JustAccepted(longer[|more|].guest, states[|acts|].guest.calls[c].id, |states[|acts|].guest.reg.heap|)
  {
    hide Ongoing, CallApply, CallEnabled, Admission, WellFormed, Shortest;
    OngoingHasItsLength(states, acts, k, anchor);
    RecordTurn(states[|acts|].guest, c);
    longer, more := Then(states, acts, k, anchor, D.GuestAct(CallStep(c, Record(1))));
  }

  /** While the guest is not draining a free id can be accepted, as an execution whose log is just begun. */
  lemma Accept(states: seq<D.Sys>, acts: seq<D.Act>, k: nat, anchor: Option<nat>, id: string)
    returns (longer: seq<D.Sys>, more: seq<D.Act>)
    requires Ongoing(states, acts, k, anchor)
    requires var r := states[|acts|].guest.reg; !r.draining && id !in r.byId && id != ""
    ensures Ongoing(longer, more, k, anchor) && longer[0] == states[0] && longer[|more|].drains == states[|acts|].drains
    ensures JustAccepted(longer[|more|].guest, id, |states[|acts|].guest.reg.heap|)
  {
    OngoingIsWellFormed(states, acts, k, anchor);
    hide Ongoing;
    var g := states[|acts|].guest;
    var call;
    longer, more, call := Come(states, acts, k, anchor, id);
    OngoingHasItsLength(longer, more, k, anchor);
    assert Admission(g.reg, id, call.slot) == Accepted;
    hide WellFormed, Admission, JustAccepted;
    longer, more := Launch(longer, more, k, anchor, |g.calls|, call);
    OngoingHasItsLength(longer, more, k, anchor);
    longer, more := RecordThen(longer, more, k, anchor, |g.calls|);
    OngoingHasItsLength(longer, more, k, anchor);
  }

  lemma OngoingIsWellFormed(states: seq<D.Sys>, acts: seq<D.Act>, k: nat, anchor: Option<nat>)
    requires Ongoing(states, acts, k, anchor)
    ensures |states| == |acts| + 1
    ensures var g := states[|acts|].guest; WellFormed(g.reg) && |g.tasks| == |g.reg.heap|
  {
    RegParts(states[|acts|].guest);
    hide ShapedHeap, RunningInv, DrainsInv, ListingsInv, LifeAt, CallNamed;
  }
  // ----- the drain opens ----------------------------------------------------------------------

  lemma OpenStrands(s: D.Sys, k: nat)
    requires k < |s.drains| && s.drains[k].pc.Opening? && s.drains[k].id in s.guest.reg.byId
    requires var h := s.guest.reg.byId[s.drains[k].id];
      h < |s.guest.reg.heap| && !s.guest.reg.heap[h].running && |s.guest.reg.heap[h].history| <= s.drains[k].cursor
    ensures D.Enabled(s, D.DrainStep(k, D.OpenSucceeds))
    ensures var s' := D.Apply(s, D.DrainStep(k, D.OpenSucceeds));
      k < |s'.drains| && Stranded(s'.guest.reg.heap, s'.drains[k])
  {
  }

  /** The id leads to an execution whose log can end at or before the cursor of drain k. */
  predicate MeetsShort(s: D.Sys, k: nat) {
    && k < |s.drains| && s.drains[k].pc.Opening? && s.drains[k].id in s.guest.reg.byId
    && Has(s.guest, s.guest.reg.byId[s.drains[k].id])
    && Shortest(s.guest, s.guest.reg.byId[s.drains[k].id]) <= s.drains[k].cursor
  }

  /** That log does end so, and the drain opens it. */
  lemma MeetShort(states: seq<D.Sys>, acts: seq<D.Act>, k: nat, anchor: Option<nat>)
    returns (longer: seq<D.Sys>, more: seq<D.Act>)
    requires Ongoing(states, acts, k, anchor)
    requires MeetsShort(states[|acts|], k)
    ensures Ongoing(longer, more, k, anchor) && longer[0] == states[0]
    ensures k < |longer[|more|].drains| && Stranded(longer[|more|].guest.reg.heap, longer[|more|].drains[k])
  {
    OngoingHasItsLength(states, acts, k, anchor);
    hide Ongoing, Shortest;
    var s := states[|acts|];
    longer, more := Finish(states, acts, k, anchor, s.guest.reg.byId[s.drains[k].id]);
    OngoingHasItsLength(longer, more, k, anchor);
    OpenStrands(longer[|more|], k);
    hide Stranded, D.Enabled, D.Apply;
    longer, more := Then(longer, more, k, anchor, D.DrainStep(k, D.OpenSucceeds));
    OngoingHasItsLength(longer, more, k, anchor);
  }

  /** What registers an id is an execution of that name. */
  lemma Leads(s: D.Sys, id: string)
    requires SysInv(s) && LifeInv(s.guest) && id in s.guest.reg.byId
    ensures var h := s.guest.reg.byId[id]; Has(s.guest, h) && s.guest.reg.heap[h].id == id && Registered(s.guest.reg, h)
  {
    RegParts(s.guest);
    hide GuestInv, DrainsInv, ListingsInv, RunningInv, ShapedHeap, LifeAt, CallNamed;
  }

  /** Whatever execution an id leads to, other than the anchor, can end and be forgotten. */
  lemma Free(states: seq<D.Sys>, acts: seq<D.Act>, k: nat, anchor: Option<nat>, id: string)
    returns (longer: seq<D.Sys>, more: seq<D.Act>)
    requires Ongoing(states, acts, k, anchor)
    requires var r := states[|acts|].guest.reg; id in r.byId ==> anchor != Some(r.byId[id])
    ensures Ongoing(longer, more, k, anchor) && longer[0] == states[0] && longer[|more|].drains == states[|acts|].drains
    ensures id !in longer[|more|].guest.reg.byId
    ensures longer[|more|].guest.reg.draining == states[|acts|].guest.reg.draining
  {
    longer, more := states, acts;
    OngoingHasItsLength(states, acts, k, anchor);
    var r := states[|acts|].guest.reg;
    if id in r.byId {
      var h := r.byId[id];
      Leads(states[|acts|], id);
      hide SysInv, LifeInv, Future, Shortest;
      longer, more := Finish(longer, more, k, anchor, h);
      OngoingHasItsLength(longer, more, k, anchor);
      Leads(longer[|more|], id);
      longer, more := Forget(longer, more, k, anchor, h);
      OngoingHasItsLength(longer, more, k, anchor);
    }
  }

  lemma ReadDrainIsNamed(s: D.Sys, k: nat)
    requires SysInv(s) && LifeInv(s.guest) && k < |s.drains| && s.drains[k].pc.Opening? && s.drains[k].cursor > 0
    ensures s.drains[k].id != ""
  {
    assert DrainInv(s.guest.reg.heap, s.drains[k]);
    hide GuestInv, DrainsInv, ListingsInv, SessionInv, GotInv, EndInv, TerminalAhead;
    assert LifeAt(s.guest, s.drains[k].anchor.value);
  }

  lemma NothingYet(s: D.Sys, k: nat, anchor: Option<nat>)
    requires SysInv(s) && LifeInv(s.guest)
    ensures Ongoing([s], [], k, anchor)
  {
    hide SysInv, LifeInv;
  }

  /** An exposed drain can find its id accepted again. */
  lemma ExposedMeetsShort(s: D.Sys, k: nat) returns (states: seq<D.Sys>, acts: seq<D.Act>)
    requires SysInv(s) && LifeInv(s.guest) && k < |s.drains| && s.drains[k].pc.Opening?
    requires Exposed(s.guest, s.drains[k])
    ensures Ongoing(states, acts, k, s.drains[k].anchor) && states[0] == s && MeetsShort(states[|acts|], k)
  {
    ReadDrainIsNamed(s, k);
    var d := s.drains[k];
    states, acts := [s], [];
    NothingYet(s, k, d.anchor);
    hide SysInv, LifeInv, Ongoing, Shortest;
    if !s.guest.reg.draining {
      states, acts := Free(states, acts, k, d.anchor, d.id);
      OngoingHasItsLength(states, acts, k, d.anchor);
      states, acts := Accept(states, acts, k, d.anchor, d.id);
      OngoingHasItsLength(states, acts, k, d.anchor);
    }
  }

  lemma ExposedCanStrand(s: D.Sys, k: nat)
    requires SysInv(s) && LifeInv(s.guest) && k < |s.drains| && s.drains[k].pc.Opening?
    requires Exposed(s.guest, s.drains[k])
    ensures CanStrand(s, k)
  {
    hide SysInv, LifeInv, Exposed, Stranded, MeetsShort, Ongoing, Future;
    var states, acts := ExposedMeetsShort(s, k);
    states, acts := MeetShort(states, acts, k, s.drains[k].anchor);
    OngoingIsFuture(states, acts, k, s.drains[k].anchor);
    assert Strands(states, acts, s, k);
  }

  lemma OngoingIsFuture(states: seq<D.Sys>, acts: seq<D.Act>, k: nat, anchor: Option<nat>)
    requires Ongoing(states, acts, k, anchor)
    ensures Future(states, acts, k, anchor) && |states| == |acts| + 1
  {
  }

  lemma {:induction false} LifeReachable(run: seq<D.Sys>, acts: seq<D.Act>, n: nat)
    requires D.IsRun(run, acts) && n < |run|
    ensures SysInv(run[n]) && LifeInv(run[n].guest)
  {
    hide SysInv, LifeInv, D.Enabled, D.Apply;
    DeliverySafety.Reachable(run, acts, n);
    if n == 0 {
      NoLivesYet(run[0].guest);
    } else {
      LifeReachable(run, acts, n - 1);
      assert D.Enabled(run[n - 1], acts[n - 1]) && run[n - 1 + 1] == D.Apply(run[n - 1], acts[n - 1]);
      LifeKept(run[n - 1], acts[n - 1]);
    }
  }

  /**
   Exactly when a resumed drain can skip past the terminal. Of a drain about to open a stream: without it
   receiving anything more, and without the execution its cursor came from being forgotten from here on,
   some continuation brings it to a stream that is over and had no terminal, if and only if the cursor is 3
   or more, that execution is forgotten already, and the guest still accepts executions or has one under
   the id whose log can end by the cursor.
   */
  lemma StrandsIffExposed(run: seq<D.Sys>, acts: seq<D.Act>, n: nat, k: nat)
    requires D.IsRun(run, acts) && n < |run| && k < |run[n].drains| && run[n].drains[k].pc.Opening?
    ensures CanStrand(run[n], k) <==> Exposed(run[n].guest, run[n].drains[k])
  {
    LifeReachable(run, acts, n);
    hide D.IsRun, SysInv, LifeInv, CanStrand, Exposed;
    if Exposed(run[n].guest, run[n].drains[k]) { ExposedCanStrand(run[n], k); } else { UnexposedNeverStrands(run[n], k); }
  }

  /** While the guest is not draining that is: the cursor is 3 or more and the execution it came from is forgotten. */
  lemma StrandsIffForgotten(run: seq<D.Sys>, acts: seq<D.Act>, n: nat, k: nat)
    requires D.IsRun(run, acts) && n < |run| && k < |run[n].drains| && run[n].drains[k].pc.Opening?
    requires !run[n].guest.reg.draining && run[n].drains[k].cursor >= 3
    ensures CanStrand(run[n], k) <==> !AnchorRetained(run[n].guest.reg, run[n].drains[k])
  {
    StrandsIffExposed(run, acts, n, k);
    hide D.IsRun, CanStrand;
  }
}
