/** What admissions, cancels, drains and heartbeats come to, in every run of the guest. */
module GuestOutcomes {
  import opened Wrappers
  import opened EventLog
  import opened RegistrySections
  import opened GuestRuns
  import opened GuestLogs
  import opened GuestAccounts
  import opened GuestSafety
  import opened GuestExits

  lemma LastStep(run: seq<Guest>, acts: seq<Act>, n: nat)
    requires IsRun(run, acts) && 0 < n < |run|
    ensures n - 1 < |acts| && Enabled(run[n - 1], acts[n - 1]) && run[n] == Apply(run[n - 1], acts[n - 1])
  {
    assert Enabled(run[n - 1], acts[n - 1]) && run[n - 1 + 1] == Apply(run[n - 1], acts[n - 1]);
  }

  // ----- cancel ---------------------------------------------------------------------------------

  /** Act m killed the process group of execution h, which was running and not reaped. */
  predicate KillsAt(run: seq<Guest>, acts: seq<Act>, m: nat, h: nat) {
    && m < |acts| && m < |run| && acts[m] == CancelExecution(h, true)
    && h < |run[m].reg.heap| && run[m].reg.heap[h].running && !run[m].reg.heap[h].reaped
  }

  predicate Kills(g: Guest, a: Act, h: nat) {
    a == CancelExecution(h, true) && h < |g.reg.heap| && g.reg.heap[h].running && !g.reg.heap[h].reaped
  }

  lemma CancelStep(g: Guest, a: Act, h: nat)
    requires Enabled(g, a) && |g.tasks| == |g.reg.heap| && h < |Apply(g, a).reg.heap|
    ensures Apply(g, a).reg.heap[h].cancelled <==> (h < |g.reg.heap| && g.reg.heap[h].cancelled) || Kills(g, a, h)
  {
    if h < |g.reg.heap| {
      if ActsOn(a, h) {
        OwnCancelStep(g, a, h);
        hide Apply, Enabled;
      } else {
        OthersKeepTheirOwn(g, a, h);
        hide Apply, Enabled;
      }
    } else {
      hide WellFormed, Admission, ReaderExec, HeartbeatOn, Reap, RegistrySections.Cancel, CompleteExec;
    }
  }

  lemma OwnCancelStep(g: Guest, a: Act, h: nat)
    requires Enabled(g, a) && Has(g, h) && ActsOn(a, h)
    ensures h < |Apply(g, a).reg.heap|
    ensures Apply(g, a).reg.heap[h].cancelled <==> g.reg.heap[h].cancelled || Kills(g, a, h)
  {
    hide WellFormed;
  }

  /** An execution is cancelled if and only if a cancel killed its process group while it ran unreaped. */
  lemma {:induction false} CancelledIffKilled(run: seq<Guest>, acts: seq<Act>, n: nat, h: nat)
    requires IsRun(run, acts) && n < |run| && h < |run[n].reg.heap|
    ensures run[n].reg.heap[h].cancelled <==> exists m: nat :: m < n && KillsAt(run, acts, m, h)
  {
    hide Enabled, Apply, Kills;
    if n > 0 {
      LastStep(run, acts, n);
      Reachable(run, acts, n - 1);
      HasTask(run[n - 1]);
      hide GuestInv;
      var g, a := run[n - 1], acts[n - 1];
      CancelStep(g, a, h);
      KillNow(run, acts, n - 1, h);
      if h < |g.reg.heap| {
        CancelledIffKilled(run, acts, n - 1, h);
      } else {
        NoKillBefore(run, acts, n - 1, h);
      }
      hide IsRun, KillsAt;
      assert (exists m: nat :: m < n && KillsAt(run, acts, m, h)) <==>
               (exists m: nat :: m < n - 1 && KillsAt(run, acts, m, h)) || KillsAt(run, acts, n - 1, h);
    }
  }

  lemma KillNow(run: seq<Guest>, acts: seq<Act>, m: nat, h: nat)
    requires IsRun(run, acts) && m < |acts|
    ensures KillsAt(run, acts, m, h) <==> Kills(run[m], acts[m], h)
  {
    hide Init, Enabled, Apply;
  }

  lemma {:induction false} HeapGrows(run: seq<Guest>, acts: seq<Act>, n: nat, m: nat)
    requires IsRun(run, acts) && n <= m < |run|
    ensures |run[n].reg.heap| <= |run[m].reg.heap|
  {
    hide Enabled, Apply, Init;
    if n < m {
      HeapGrows(run, acts, n, m - 1);
      LastStep(run, acts, m);
      hide IsRun;
      OneGrows(run[m - 1], acts[m - 1]);
    }
  }

  lemma OneGrows(g: Guest, a: Act)
    requires Enabled(g, a)
    ensures |Apply(g, a).reg.heap| >= |g.reg.heap|
  {
    hide WellFormed, Admission, NewExec, ReaderExec, HeartbeatOn, Reap, RegistrySections.Cancel, CompleteExec;
  }

  /** Nothing kills an execution that does not exist yet. */
  lemma NoKillBefore(run: seq<Guest>, acts: seq<Act>, n: nat, h: nat)
    requires IsRun(run, acts) && n < |run| && h >= |run[n].reg.heap|
    ensures forall m: nat :: m < n ==> !KillsAt(run, acts, m, h)
  {
    forall m: nat | m < n
      ensures !KillsAt(run, acts, m, h)
    {
      HeapGrows(run, acts, m, n);
    }
    hide IsRun;
  }

  /**
   What the host is told of a stopped execution: the exit first reported for it, and "execution cancelled" as
   the message if and only if a cancel killed its process group before it was reaped.
   */
  lemma TerminalTellsTheCancel(run: seq<Guest>, acts: seq<Act>, n: nat, h: nat) returns (m: nat)
    requires IsRun(run, acts) && n < |run| && h < |run[n].reg.heap| && !run[n].reg.heap[h].running
    ensures m < n && FirstReport(acts, m, h) && run[n].reg.heap[h].history != []
    ensures var (log, report) := (run[n].reg.heap[h].history, acts[m].exit);
      Says(log[|log| - 1], report.exitCode,
           if exists x: nat :: x < n && KillsAt(run, acts, x, h) then "execution cancelled" else report.message)
  {
    TerminalReportsTheExit(run, acts, n, h);
    m := FirstReportCounts(run, acts, n, h);
    CancelledIffKilled(run, acts, n, h);
    hide IsRun, Says, FirstReport;
  }

  /** Cancelling changes the flag of a live execution whose kill succeeded, nothing else, and only once. */
  lemma CancelMarksTheLive(e: Exec, killed: bool, again: bool)
    ensures var e' := RegistrySections.Cancel(e, killed);
      && (e'.cancelled <==> e.cancelled || (e.running && !e.reaped && killed))
      && e' == e.(cancelled := e'.cancelled)
      && RegistrySections.Cancel(e', again) == RegistrySections.Cancel(e, killed || again)
  {
  }

  // ----- admission --------------------------------------------------------------------------------

  /** Execution h is retained under this id: accepted, and its retention has not ended. */
  predicate RetainedAs(g: Guest, h: nat, id: string) {
    h < |g.reg.heap| && h < |g.tasks| && g.reg.heap[h].id == id && !g.tasks[h].sup.Settled?
  }

  predicate RunsOn(g: Guest, h: nat, slot: nat) {
    h < |g.reg.heap| && g.reg.heap[h].running && g.reg.heap[h].slot == slot
  }

  lemma RetainedIsEntry(run: seq<Guest>, acts: seq<Act>, n: nat, id: string)
    requires IsRun(run, acts) && n < |run|
    ensures WellFormed(run[n].reg)
    ensures forall h: nat :: RetainedAs(run[n], h, id) <==> id in run[n].reg.byId && run[n].reg.byId[id] == h
  {
    Reachable(run, acts, n);
    LifeReachable(run, acts, n);
    hide IsRun, RunningInv, SlotsInv, CountsInv, ExecsInv, CallsInv, CallNamed;
    forall h: nat
      ensures RetainedAs(run[n], h, id) <==> id in run[n].reg.byId && run[n].reg.byId[id] == h
    {
      assert h < |run[n].reg.heap| ==> LifeAt(run[n], h);
    }
  }

  lemma TakenIsRunning(run: seq<Guest>, acts: seq<Act>, n: nat, slot: nat)
    requires IsRun(run, acts) && n < |run|
    ensures slot in run[n].reg.slots <==> exists h: nat :: RunsOn(run[n], h, slot)
  {
    Reachable(run, acts, n);
    hide IsRun, IdsInv, CountsInv, ExecsInv, CallsInv;
    var r := run[n].reg;
    if slot in r.slots {
      assert Served(r, slot);
      assert RunsOn(run[n], r.byId[r.slots[slot]], slot);
    }
    forall h: nat | RunsOn(run[n], h, slot)
      ensures slot in r.slots
    {
      assert Holds(r, h);
    }
  }

  /**
   What a RunJob request is answered, in any reachable state: refused while draining; otherwise decided by
   the execution retained under its id, if there is one: running or completed when that is on the same slot,
   a conflict when it is on another; and with none, accepted exactly if nothing runs on the slot.
   */
  lemma AdmissionAnswers(run: seq<Guest>, acts: seq<Act>, n: nat, id: string, slot: nat)
    requires IsRun(run, acts) && n < |run|
    ensures WellFormed(run[n].reg)
    ensures var (g, answer) := (run[n], Admission(run[n].reg, id, slot));
      && (answer == ErrDraining <==> g.reg.draining)
      && (answer == AlreadyRunning <==>
            !g.reg.draining && exists h: nat :: RetainedAs(g, h, id) && g.reg.heap[h].running && g.reg.heap[h].slot == slot)
      && (answer == AlreadyCompleted <==>
            !g.reg.draining && exists h: nat :: RetainedAs(g, h, id) && !g.reg.heap[h].running && g.reg.heap[h].slot == slot)
      && (answer == Accepted <==>
            !g.reg.draining && !(exists h: nat :: RetainedAs(g, h, id)) && !(exists h: nat :: RunsOn(g, h, slot)))
      && (answer == Conflict <==>
            && !g.reg.draining
            && if exists h: nat :: RetainedAs(g, h, id)
               then exists h: nat :: RetainedAs(g, h, id) && g.reg.heap[h].slot != slot
               else exists h: nat :: RunsOn(g, h, slot))
  {
    RetainedIsEntry(run, acts, n, id);
    TakenIsRunning(run, acts, n, slot);
    hide IsRun, WellFormed, RunsOn;
    var g := run[n];
    if id in g.reg.byId { assert RetainedAs(g, g.reg.byId[id], id); }
    hide RetainedAs;
  }

  /** The guest drains exactly since it was first told to. */
  lemma {:induction false} DrainingSinceTold(run: seq<Guest>, acts: seq<Act>, n: nat)
    requires IsRun(run, acts) && n < |run|
    ensures run[n].reg.draining <==> exists m: nat :: m < n && m < |acts| && acts[m] == StartDrain
  {
    hide Enabled, Apply;
    if n > 0 {
      LastStep(run, acts, n);
      DrainingSinceTold(run, acts, n - 1);
      hide IsRun;
      DrainingStep(run[n - 1], acts[n - 1]);
    }
  }

  lemma DrainingStep(g: Guest, a: Act)
    requires Enabled(g, a)
    ensures Apply(g, a).reg.draining <==> g.reg.draining || a == StartDrain
  {
    hide WellFormed, Admission, NewExec, ReaderExec, HeartbeatOn, Reap, RegistrySections.Cancel, CompleteExec;
  }

  /**
   An accepted request is recorded as one more running execution with what the request said, its log just
   begun, found under its id and on its slot; every other execution, id and slot is as before.
   */
  lemma AcceptedIsRecorded(r: Reg, id: string, slot: nat, meta: JobMeta, pid: int)
    requires WellFormed(r)
    ensures Admission(r, id, slot) != Accepted ==> Register(r, id, slot, meta, pid) == r
    ensures Admission(r, id, slot) == Accepted ==>
              var heap := Register(r, id, slot, meta, pid).heap;
              && |heap| == |r.heap| + 1 && heap[..|r.heap|] == r.heap
              && var e := heap[|r.heap|];
                 && e.id == id && e.slot == slot && e.meta == meta && e.pid == pid && e.phase == "running" && e.running
                 && !e.reaped && !e.cancelled && !e.exitReported && e.history == [PhaseChange("running")]
    ensures Admission(r, id, slot) == Accepted ==>
              var r' := Register(r, id, slot, meta, pid);
              && id in r'.byId && r'.byId[id] == |r.heap| && slot in r'.slots && r'.slots[slot] == id
              && (forall other :: other != id ==> (other in r'.byId <==> other in r.byId)
                                                  && (other in r.byId ==> r'.byId[other] == r.byId[other]))
              && (forall other :: other != slot ==> (other in r'.slots <==> other in r.slots)
                                                    && (other in r.slots ==> r'.slots[other] == r.slots[other]))
              && r'.activeCount == r.activeCount + 1 && !r'.draining
              && r'.drainedClosed == r.drainedClosed && r'.closes == r.closes
  {
    hide WellFormed;
  }

  /** The end of an execution: phase and terminal appended, its slot given back, a drain settled when it was the last. */
  lemma CompletedIsSettled(r: Reg, h: nat)
    requires h < |r.heap|
    ensures var (r', e) := (Complete(r, h), r.heap[h]);
      && |r'.heap| == |r.heap| && (forall j :: 0 <= j < |r.heap| && j != h ==> r'.heap[j] == r.heap[j])
      && var e' := r'.heap[h];
         && e' == e.(phase := "completed", running := false, history := e'.history)
         && |e'.history| == |e.history| + 2 && e'.history[..|e.history|] == e.history
         && e'.history[|e.history|] == PhaseChange("completed")
         && Says(e'.history[|e.history| + 1], e.exitCode, if e.cancelled then "execution cancelled" else e.exitMsg)
    ensures var (r', e) := (Complete(r, h), r.heap[h]);
      && r'.byId == r.byId && e.slot !in r'.slots && r'.activeCount == r.activeCount - 1 && r'.draining == r.draining
      && (forall slot :: slot in r'.slots <==> slot in r.slots && slot != e.slot)
      && (forall slot :: slot in r'.slots ==> r'.slots[slot] == r.slots[slot])
      && (r'.drainedClosed <==> r.drainedClosed || (r.draining && r.activeCount == 1))
      && r'.closes == r.closes + if !r.drainedClosed && r'.drainedClosed then 1 else 0
  {
  }

  /** A drain refuses from now on, and closes the drained channel at once when nothing is active. */
  lemma DrainRefuses(r: Reg, id: string, slot: nat)
    requires WellFormed(r)
    ensures var r' := RegistrySections.Drain(r);
      && r'.draining && r' == r.(draining := true, drainedClosed := r'.drainedClosed, closes := r'.closes)
      && (r'.drainedClosed <==> r.drainedClosed || r.activeCount == 0)
      && r'.closes == r.closes + (if !r.drainedClosed && r'.drainedClosed then 1 else 0)
      && Admission(r', id, slot) == ErrDraining
  {
  }

  /** The end of retention forgets the id if it still leads to that execution, and nothing else ever. */
  lemma ExpiryForgetsItsOwn(r: Reg, h: nat)
    requires h < |r.heap|
    ensures var (r', id) := (RegistrySections.Expire(r, h), r.heap[h].id);
      && r' == r.(byId := r'.byId)
      && (forall other :: other in r'.byId ==> other in r.byId && r'.byId[other] == r.byId[other])
      && (forall other :: other in r.byId && other !in r'.byId <==> other in r.byId && other == id && r.byId[id] == h)
  {
  }

  /** A heartbeat is logged while the execution runs, and never after its terminal. */
  lemma BeatIsLogged(e: Exec, nanos: int)
    ensures var e' := HeartbeatOn(e, nanos);
      && e' == e.(history := e'.history)
      && if e.running then |e'.history| == |e.history| + 1 && e'.history[..|e.history|] == e.history
                           && e'.history[|e.history|] == Heartbeat(nanos)
         else e'.history == e.history
  {
  }
}
