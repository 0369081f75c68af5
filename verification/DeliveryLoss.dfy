/** A run of guest and host in which a drain that never lost its cursor misses a terminal for good. */
module DeliveryLoss {
  import opened Wrappers
  import opened EventLog
  import opened RegistrySections
  import opened GuestRuns
  import opened GuestLogs
  import opened GuestAccounts
  import opened GuestSafety
  import opened GuestExits
  import opened DeliverySafety
  import opened DeliveryRetention
  import opened Stranding
  import D = Delivery

  // The drain of the run is drain 0; its acts are spared nothing, so the futures here are those of drain 1.

  /** Execution 0 runs under this id and has logged n events. */
  predicate FirstRuns(g: Guest, id: string, n: nat) {
    && id in g.reg.byId && g.reg.byId[id] == 0 && Has(g, 0) && g.reg.heap[0].id == id
    && g.reg.heap[0].running && |g.reg.heap[0].history| == n && |g.reg.heap| == 1 && !g.reg.draining
  }

  /** The drain reads execution 0 and has received it up to the cursor. */
  predicate Reads(d: D.Drain, id: string, cursor: nat) {
    && d.id == id && d.cursor == cursor && d.phase == D.Following && d.stop == None
    && d.pc.Attached? && d.pc.session.h == 0 && d.pc.session.next == cursor + 1 && d.pc.session.wire == []
    && d.pc.session.slept == None && !d.pc.session.ended
    && (cursor > 0 ==> d.anchor == Some(0))
  }

  /** The drain received three events of execution 0 and is about to open again. */
  predicate Reopens(d: D.Drain, id: string) {
    d.pc.Opening? && d.id == id && d.cursor == 3 && d.anchor == Some(0)
  }

  lemma BeatTurn(g: Guest, id: string, n: nat)
    requires WellFormed(g.reg) && FirstRuns(g, id, n)
    ensures Enabled(g, Beat(0, 0)) && FirstRuns(Apply(g, Beat(0, 0)), id, n + 1)
  {
    hide WellFormed;
  }

  lemma BeatThen(states: seq<D.Sys>, acts: seq<D.Act>, id: string, n: nat)
    returns (longer: seq<D.Sys>, more: seq<D.Act>)
    requires Ongoing(states, acts, 1, None) && FirstRuns(states[|acts|].guest, id, n)
    ensures Ongoing(longer, more, 1, None) && longer[0] == states[0] && longer[|more|].drains == states[|acts|].drains
    ensures FirstRuns(longer[|more|].guest, id, n + 1)
  {
    hide Ongoing, WellFormed;
    OngoingIsWellFormed(states, acts, 1, None);
    BeatTurn(states[|acts|].guest, id, n);
    hide Apply, Enabled, FirstRuns;
    longer, more := Then(states, acts, 1, None, D.GuestAct(Beat(0, 0)));
    OngoingHasItsLength(longer, more, 1, None);
  }

  lemma RunningSendsNoTerminal(s: D.Sys, i: nat)
    requires SysInv(s) && 0 < |s.guest.reg.heap| && s.guest.reg.heap[0].running && i < |s.guest.reg.heap[0].history|
    ensures !Shown(s.guest.reg.heap[0].history, i).TerminalResult?
  {
    RegParts(s.guest);
    hide GuestInv, DrainsInv, ListingsInv, IdsInv, RunningInv;
    ShapeInWords(s.guest.reg.heap[0]);
    hide LogShape;
    assert !IsTerminal(s.guest.reg.heap[0].history[i]);
  }

  lemma DrainStepIs(s: D.Sys, a: D.DrainAct)
    requires |s.drains| == 1 && D.DrainEnabled(s.guest.reg, s.drains[0], a)
    ensures D.Enabled(s, D.DrainStep(0, a)) && Spares(D.DrainStep(0, a), 1, None)
    ensures D.Apply(s, D.DrainStep(0, a)) == s.(drains := [D.DrainApply(s.guest.reg, s.drains[0], a)])
  {
    hide D.DrainApply, D.DrainEnabled;
  }

  lemma DispatchIs(s: D.Sys, id: string)
    requires s.drains == []
    ensures D.Enabled(s, D.Dispatch(id)) && Spares(D.Dispatch(id), 1, None)
    ensures D.Apply(s, D.Dispatch(id)) == s.(drains := [D.NewDrain(id, 0, None)])
  {
  }

  /** One act of the only drain. */
  lemma DrainThen(states: seq<D.Sys>, acts: seq<D.Act>, a: D.DrainAct)
    returns (longer: seq<D.Sys>, more: seq<D.Act>)
    requires Ongoing(states, acts, 1, None) && |states[|acts|].drains| == 1
    requires D.DrainEnabled(states[|acts|].guest.reg, states[|acts|].drains[0], a)
    ensures Ongoing(longer, more, 1, None) && longer[0] == states[0] && longer[|more|].guest == states[|acts|].guest
    ensures longer[|more|].drains == [D.DrainApply(states[|acts|].guest.reg, states[|acts|].drains[0], a)]
  {
    OngoingHasItsLength(states, acts, 1, None);
    DrainStepIs(states[|acts|], a);
    hide Ongoing, D.Apply, D.Enabled, D.DrainApply, D.DrainEnabled;
    longer, more := Then(states, acts, 1, None, D.DrainStep(0, a));
  }

  lemma SendTurn(r: Reg, d: D.Drain, id: string, cursor: nat)
    requires Reads(d, id, cursor) && 0 < |r.heap| && cursor < |r.heap[0].history|
    requires !Shown(r.heap[0].history, cursor).TerminalResult?
    ensures D.DrainEnabled(r, d, D.StreamStep(D.StreamRead))
    ensures var d' := D.DrainApply(r, d, D.StreamStep(D.StreamRead));
      && D.DrainEnabled(r, d', D.Receive) && d'.pc.session.wire[0].payload == Shown(r.heap[0].history, cursor)
      && Reads(D.DrainApply(r, d', D.Receive), id, cursor + 1)
  {
    hide Shown;
  }

  lemma ReadThen(states: seq<D.Sys>, acts: seq<D.Act>, id: string, cursor: nat)
    returns (longer: seq<D.Sys>, more: seq<D.Act>)
    requires Ongoing(states, acts, 1, None) && cursor < 3
    requires var s := states[|acts|]; FirstRuns(s.guest, id, 3) && |s.drains| == 1 && Reads(s.drains[0], id, cursor)
    ensures Ongoing(longer, more, 1, None) && longer[0] == states[0]
    ensures var s := longer[|more|]; FirstRuns(s.guest, id, 3) && |s.drains| == 1 && Reads(s.drains[0], id, cursor + 1)
  {
    OngoingHasItsLength(states, acts, 1, None);
    var s := states[|acts|];
    RunningSendsNoTerminal(s, cursor);
    SendTurn(s.guest.reg, s.drains[0], id, cursor);
    hide Ongoing, Shown, Reads, D.DrainApply, D.DrainEnabled;
    longer, more := DrainThen(states, acts, D.StreamStep(D.StreamRead));
    OngoingHasItsLength(longer, more, 1, None);
    longer, more := DrainThen(longer, more, D.Receive);
    OngoingHasItsLength(longer, more, 1, None);
  }

  lemma OpenTurn(r: Reg, id: string)
    requires id in r.byId && r.byId[id] == 0 && 0 < |r.heap|
    ensures var d := D.NewDrain(id, 0, None);
      && D.DrainEnabled(r, d, D.CheckContext)
      && var d' := D.DrainApply(r, d, D.CheckContext);
         D.DrainEnabled(r, d', D.OpenSucceeds) && Reads(D.DrainApply(r, d', D.OpenSucceeds), id, 0)
  {
  }

  lemma DispatchThen(states: seq<D.Sys>, acts: seq<D.Act>, id: string)
    returns (longer: seq<D.Sys>, more: seq<D.Act>)
    requires Ongoing(states, acts, 1, None) && states[|acts|].drains == []
    ensures Ongoing(longer, more, 1, None) && longer[0] == states[0] && longer[|more|].guest == states[|acts|].guest
    ensures longer[|more|].drains == [D.NewDrain(id, 0, None)]
  {
    OngoingHasItsLength(states, acts, 1, None);
    DispatchIs(states[|acts|], id);
    hide Ongoing, D.Apply, D.Enabled, D.NewDrain;
    longer, more := Then(states, acts, 1, None, D.Dispatch(id));
  }

  lemma OpenThen(states: seq<D.Sys>, acts: seq<D.Act>, id: string)
    returns (longer: seq<D.Sys>, more: seq<D.Act>)
    requires Ongoing(states, acts, 1, None) && FirstRuns(states[|acts|].guest, id, 3) && states[|acts|].drains == []
    ensures Ongoing(longer, more, 1, None) && longer[0] == states[0]
    ensures var s := longer[|more|]; FirstRuns(s.guest, id, 3) && |s.drains| == 1 && Reads(s.drains[0], id, 0)
  {
    OngoingHasItsLength(states, acts, 1, None);
    OpenTurn(states[|acts|].guest.reg, id);
    hide Ongoing, Reads, D.DrainApply, D.DrainEnabled;
    longer, more := DispatchThen(states, acts, id);
    OngoingHasItsLength(longer, more, 1, None);
    longer, more := DrainThen(longer, more, D.CheckContext);
    OngoingHasItsLength(longer, more, 1, None);
    longer, more := DrainThen(longer, more, D.OpenSucceeds);
    OngoingHasItsLength(longer, more, 1, None);
  }

  lemma BreakTurn(r: Reg, d: D.Drain, id: string)
    requires Reads(d, id, 3)
    ensures D.DrainEnabled(r, d, D.StreamBreaks)
    ensures var d' := D.DrainApply(r, d, D.StreamBreaks);
      D.DrainEnabled(r, d', D.CheckContext) && Reopens(D.DrainApply(r, d', D.CheckContext), id)
  {
    hide D.EventsOf;
  }

  /** The connection breaks, and the drain is about to open again. */
  lemma BreakThen(states: seq<D.Sys>, acts: seq<D.Act>, id: string)
    returns (longer: seq<D.Sys>, more: seq<D.Act>)
    requires Ongoing(states, acts, 1, None)
    requires var s := states[|acts|]; FirstRuns(s.guest, id, 3) && |s.drains| == 1 && Reads(s.drains[0], id, 3)
    ensures Ongoing(longer, more, 1, None) && longer[0] == states[0]
    ensures var s := longer[|more|]; FirstRuns(s.guest, id, 3) && |s.drains| == 1 && Reopens(s.drains[0], id)
  {
    OngoingHasItsLength(states, acts, 1, None);
    BreakTurn(states[|acts|].guest.reg, states[|acts|].drains[0], id);
    hide Ongoing, Reads, Reopens, D.DrainApply, D.DrainEnabled;
    longer, more := DrainThen(states, acts, D.StreamBreaks);
    OngoingHasItsLength(longer, more, 1, None);
    longer, more := DrainThen(longer, more, D.CheckContext);
    OngoingHasItsLength(longer, more, 1, None);
  }

  function Start(): D.Sys {
    D.Sys(Guest(Reg([], map[], map[], false, 0, false, 0), [], [], map[]), [], [])
  }

  lemma StartBegins()
    ensures D.Init(Start()) && Ongoing([Start()], [], 1, None)
  {
    DeliverySafety.InitHolds(Start());
    NoLivesYet(Start().guest);
    NothingYet(Start(), 1, None);
    hide SysInv, LifeInv, Future;
  }

  /** The execution that the drain read three events of ends and is forgotten while the drain reconnects. */
  lemma ExposedDrain(id: string) returns (states: seq<D.Sys>, acts: seq<D.Act>)
    requires id != ""
    ensures Ongoing(states, acts, 1, None) && states[0] == Start()
    ensures var s := states[|acts|]; |s.drains| == 1 && s.drains[0].pc.Opening? && s.drains[0].cursor == 3 && Exposed(s.guest, s.drains[0])
  {
    states, acts := [Start()], [];
    StartBegins();
    hide Ongoing, Shortest, SysInv, LifeInv;
    states, acts := Accept(states, acts, 1, None, id);
    OngoingHasItsLength(states, acts, 1, None);
    states, acts := BeatThen(states, acts, id, 1);
    OngoingHasItsLength(states, acts, 1, None);
    states, acts := BeatThen(states, acts, id, 2);
    OngoingHasItsLength(states, acts, 1, None);
    states, acts := ReadThreeThen(states, acts, id);
    OngoingHasItsLength(states, acts, 1, None);
    states, acts := Free(states, acts, 1, None, id);
    OngoingHasItsLength(states, acts, 1, None);
  }

  lemma ReadThreeThen(states: seq<D.Sys>, acts: seq<D.Act>, id: string)
    returns (longer: seq<D.Sys>, more: seq<D.Act>)
    requires Ongoing(states, acts, 1, None) && FirstRuns(states[|acts|].guest, id, 3) && states[|acts|].drains == []
    ensures Ongoing(longer, more, 1, None) && longer[0] == states[0]
    ensures var s := longer[|more|]; FirstRuns(s.guest, id, 3) && |s.drains| == 1 && Reopens(s.drains[0], id)
  {
    hide Ongoing, FirstRuns, Reads, Reopens;
    longer, more := OpenThen(states, acts, id);
    longer, more := ReadThen(longer, more, id, 0);
    longer, more := ReadThen(longer, more, id, 1);
    longer, more := ReadThen(longer, more, id, 2);
    longer, more := BreakThen(longer, more, id);
  }

  // ----- as a run -----------------------------------------------------------------------------

  lemma RunGoesOn(run: seq<D.Sys>, acts: seq<D.Act>, states: seq<D.Sys>, more: seq<D.Act>, k: nat, anchor: Option<nat>)
    requires D.IsRun(run, acts) && Future(states, more, k, anchor) && states[0] == run[|acts|]
    ensures D.IsRun(run + states[1..], acts + more)
  {
    hide D.Init, D.Enabled, D.Apply, Spares;
    var whole, all := run + states[1..], acts + more;
    forall n | 0 <= n < |all|
      ensures D.Enabled(whole[n], all[n]) && whole[n + 1] == D.Apply(whole[n], all[n])
    {
      if n < |acts| {
        assert whole[n] == run[n] && whole[n + 1] == run[n + 1] && all[n] == acts[n];
      } else {
        var m := n - |acts|;
        assert whole[n] == states[m] && whole[n + 1] == states[m + 1] && all[n] == more[m];
      }
    }
  }

  lemma FutureOfInitIsRun(states: seq<D.Sys>, acts: seq<D.Act>, k: nat, anchor: Option<nat>)
    requires Future(states, acts, k, anchor) && D.Init(states[0])
    ensures D.IsRun(states, acts)
  {
    hide D.Init, D.Enabled, D.Apply, Spares;
  }

  /** Nothing received: the cursor of drain k stays. */
  lemma {:induction false} CursorStays(states: seq<D.Sys>, acts: seq<D.Act>, k: nat, anchor: Option<nat>, n: nat)
    requires Future(states, acts, k, anchor) && n <= |acts| && k < |states[0].drains|
    ensures k < |states[n].drains| && states[n].drains[k].cursor == states[0].drains[k].cursor
  {
    if n > 0 {
      CursorStays(states, acts, k, anchor, n - 1);
      var s, a := states[n - 1], acts[n - 1];
      assert D.Enabled(s, a) && Spares(a, k, anchor) && states[n - 1 + 1] == D.Apply(s, a);
      hide Future;
      if a.DrainStep? && a.n == k { CursorStep(s.guest.reg, s.drains[k], a.drain); }
      hide D.DrainApply, D.DrainEnabled, GuestRuns.Apply, GuestRuns.Enabled;
    }
  }

  lemma CursorStep(r: Reg, d: D.Drain, a: D.DrainAct)
    requires D.DrainEnabled(r, d, a) && !a.Receive?
    ensures D.DrainApply(r, d, a).cursor == d.cursor
  {
    hide D.EventsOf, D.StreamApply, D.StreamEnabled;
  }

  lemma InitRun(states: seq<D.Sys>, acts: seq<D.Act>)
    requires Ongoing(states, acts, 1, None) && states[0] == Start()
    ensures D.IsRun(states, acts) && SysInv(states[|acts|]) && LifeInv(states[|acts|].guest)
  {
    StartBegins();
    hide SysInv, LifeInv;
    FutureOfInitIsRun(states, acts, 1, None);
  }

  lemma StrandedRun(before: seq<D.Sys>, early: seq<D.Act>, s: D.Sys) returns (run: seq<D.Sys>, acts: seq<D.Act>)
    requires D.IsRun(before, early) && before[|early|] == s && 0 < |s.drains| && CanStrand(s, 0)
    ensures D.IsRun(run, acts)
    ensures var e := run[|acts|];
      |e.drains| > 0 && e.drains[0].cursor == s.drains[0].cursor && Stranded(e.guest.reg.heap, e.drains[0])
  {
    var states, more :| Strands(states, more, s, 0);
    FutureHasItsLength(states, more, 0, s.drains[0].anchor);
    CursorStays(states, more, 0, s.drains[0].anchor, |more|);
    RunGoesOn(before, early, states, more, 0, s.drains[0].anchor);
    run, acts := before + states[1..], early + more;
    hide D.IsRun, Future, Stranded;
  }

  /**
   The terminal can be skipped: in this run the only drain read three events of an execution; while it was
   reconnecting that execution ended, was forgotten after its retention, and its id was accepted again; the
   drain opened the new log at its cursor 3, and that log, its terminal included, ends there.
   */
  lemma ResumedDrainMissesTheTerminal(id: string) returns (run: seq<D.Sys>, acts: seq<D.Act>)
    requires id != ""
    ensures D.IsRun(run, acts)
    ensures var s := run[|acts|];
      && |s.drains| > 0 && s.drains[0].cursor == 3 && Stranded(s.guest.reg.heap, s.drains[0])
      && s.drains[0].anchor != Some(s.drains[0].pc.session.h)
  {
    var before, early := ExposedDrain(id);
    InitRun(before, early);
    hide Ongoing, SysInv, LifeInv, Stranded, D.IsRun, CanStrand;
    ExposedCanStrand(before[|early|], 0);
    run, acts := StrandedRun(before, early, before[|early|]);
    NotOnItsAnchor(run, acts);
  }

  lemma NotOnItsAnchor(run: seq<D.Sys>, acts: seq<D.Act>)
    requires D.IsRun(run, acts) && 0 < |run[|acts|].drains|
    requires Stranded(run[|acts|].guest.reg.heap, run[|acts|].drains[0])
    ensures run[|acts|].drains[0].pc.Attached?
    ensures run[|acts|].drains[0].anchor != Some(run[|acts|].drains[0].pc.session.h)
  {
    var d := run[|acts|].drains[0];
    if d.anchor == Some(d.pc.session.h) { RetainedIsNeverStranded(run, acts, |acts|, 0); }
  }
}
