/** Exit reports over whole runs, and when an execution is still retained. */
module GuestExits {
  import opened Wrappers
  import opened EventLog
  import opened RegistrySections
  import opened GuestRuns
  import opened GuestLogs
  import opened GuestAccounts
  import opened GuestSafety

  // ----- what an execution's supervisor has in hand ------------------------------------------

  predicate ExitInv(e: Exec, t: Task) {
    if t.sup.Waiting? then !e.exitReported && (t.reportUsed <==> t.report.Some?) else t.reportUsed && t.report.None?
  }

  /** An execution has an id, and it is registered under it until its retention has ended. */
  predicate LifeAt(g: Guest, h: nat)
    requires h < |g.reg.heap| && h < |g.tasks|
  {
    && ExitInv(g.reg.heap[h], g.tasks[h]) && g.reg.heap[h].id != ""
    && (Registered(g.reg, h) <==> !g.tasks[h].sup.Settled?)
  }

  predicate CallNamed(call: Call) {
    Preparing(call.pc) ==> call.id != ""
  }

  predicate LifeInv(g: Guest) {
    && |g.tasks| == |g.reg.heap|
    && (forall h :: 0 <= h < |g.reg.heap| ==> LifeAt(g, h))
    && (forall c :: 0 <= c < |g.calls| ==> CallNamed(g.calls[c]))
  }

  /** The acts on execution h itself. */
  predicate ActsOn(a: Act, h: nat) {
    match a
    case ReaderStep(j, _, _) => j == h
    case Beat(j, _) => j == h
    case Deliver(j, _) => j == h
    case StartReap(j) => j == h
    case FinishReap(j) => j == h
    case RetentionEnds(j) => j == h
    case CancelExecution(j, _) => j == h
    case StartDrain => false
    case NewCall(_, _, _) => false
    case CallStep(_, _) => false
  }

  /** Registration depends on ids alone. */
  lemma SameRegistration(r: Reg, q: Reg, h: nat)
    requires h < |r.heap| == |q.heap| && q.byId == r.byId && q.heap[h].id == r.heap[h].id
    ensures Registered(q, h) <==> Registered(r, h)
  {
  }

  /** What an act on h other than its end of retention leaves of execution h. */
  lemma OwnActLeaves(g: Guest, a: Act, h: nat)
    requires Enabled(g, a) && Has(g, h) && ActsOn(a, h) && !a.RetentionEnds? && ExitInv(g.reg.heap[h], g.tasks[h])
    ensures var g' := Apply(g, a);
      && |g'.reg.heap| == |g.reg.heap| && |g'.tasks| == |g.tasks| && g'.reg.byId == g.reg.byId
      && g'.reg.heap[h].id == g.reg.heap[h].id && ExitInv(g'.reg.heap[h], g'.tasks[h])
      && (g'.tasks[h].sup.Settled? <==> g.tasks[h].sup.Settled?)
  {
    hide WellFormed;
  }

  lemma OwnActKeepsLife(g: Guest, a: Act, h: nat)
    requires Enabled(g, a) && Has(g, h) && LifeAt(g, h) && ActsOn(a, h)
    ensures |Apply(g, a).reg.heap| == |g.reg.heap| && |Apply(g, a).tasks| == |g.tasks| && LifeAt(Apply(g, a), h)
  {
    if !a.RetentionEnds? {
      OwnActLeaves(g, a, h);
      hide Apply, Enabled, ExitInv;
      SameRegistration(g.reg, Apply(g, a).reg, h);
    }
  }

  lemma OtherActKeepsLife(g: Guest, a: Act, h: nat)
    requires Enabled(g, a) && Has(g, h) && LifeAt(g, h) && !ActsOn(a, h) && !a.CallStep?
    ensures |Apply(g, a).reg.heap| == |g.reg.heap| && |Apply(g, a).tasks| == |g.tasks| && LifeAt(Apply(g, a), h)
  {
    hide WellFormed, ReaderExec, ReaderTask, HeartbeatOn, Reap, Cancel, CompleteExec, ExitInv;
  }

  lemma CallKeepsLife(g: Guest, c: nat, x: CallAct, h: nat)
    requires WellFormed(g.reg) && CallEnabled(g, c, x) && Has(g, h) && LifeAt(g, h)
    ensures Has(CallApply(g, c, x), h) && LifeAt(CallApply(g, c, x), h)
  {
    hide WellFormed, ExitInv;
  }

  /** What a call's turn does to calls, and whether it adds an execution. */
  lemma CallTurn(g: Guest, c: nat, x: CallAct)
    requires WellFormed(g.reg) && CallEnabled(g, c, x)
    ensures var g' := CallApply(g, c, x);
      && |g'.calls| == |g.calls|
      && (forall d :: 0 <= d < |g.calls| && d != c ==> g'.calls[d] == g.calls[d])
      && g'.calls[c].id == g.calls[c].id
      && (Preparing(g'.calls[c].pc) ==> Preparing(g.calls[c].pc) || g.calls[c].id != "")
      && |g'.reg.heap| - |g.reg.heap| == |g'.tasks| - |g.tasks|
      && |g.reg.heap| <= |g'.reg.heap| <= |g.reg.heap| + 1
      && (|g'.reg.heap| > |g.reg.heap| ==> Preparing(g.calls[c].pc))
  {
    hide WellFormed, NewExec, Admission;
  }

  lemma NewLife(g: Guest, c: nat, x: CallAct)
    requires WellFormed(g.reg) && CallEnabled(g, c, x) && CallNamed(g.calls[c]) && |g.reg.heap| == |g.tasks|
    requires |CallApply(g, c, x).reg.heap| > |g.reg.heap|
    ensures Has(CallApply(g, c, x), |g.reg.heap|) && LifeAt(CallApply(g, c, x), |g.reg.heap|)
  {
    hide WellFormed, Admission;
  }

  lemma CallLife(g: Guest, c: nat, x: CallAct)
    requires LifeInv(g) && Enabled(g, CallStep(c, x))
    ensures LifeInv(CallApply(g, c, x))
  {
    var g' := CallApply(g, c, x);
    CallTurn(g, c, x);
    assert CallNamed(g.calls[c]);
    hide LifeAt, CallApply, CallEnabled, WellFormed;
    forall h | 0 <= h < |g'.reg.heap|
      ensures LifeAt(g', h)
    {
      if h < |g.reg.heap| { CallKeepsLife(g, c, x, h); } else { NewLife(g, c, x); }
    }
    forall d | 0 <= d < |g'.calls|
      ensures CallNamed(g'.calls[d])
    {
      assert CallNamed(g.calls[d]);
    }
  }

  lemma QuietCalls(g: Guest, a: Act)
    requires Enabled(g, a) && !a.CallStep? && forall c :: 0 <= c < |g.calls| ==> CallNamed(g.calls[c])
    ensures forall c :: 0 <= c < |Apply(g, a).calls| ==> CallNamed(Apply(g, a).calls[c])
    ensures |Apply(g, a).reg.heap| == |g.reg.heap| && |Apply(g, a).tasks| == |g.tasks|
  {
    hide WellFormed, ReaderExec, ReaderTask, HeartbeatOn, Reap, Cancel, CompleteExec;
  }

  lemma ActLife(g: Guest, a: Act)
    requires LifeInv(g) && Enabled(g, a)
    ensures LifeInv(Apply(g, a))
  {
    if a.CallStep? {
      hide LifeInv, CallApply, CallEnabled;
      CallLife(g, a.c, a.call);
    } else {
      QuietCalls(g, a);
      hide LifeAt, CallNamed, Apply, Enabled, ActsOn;
      forall h | 0 <= h < |Apply(g, a).reg.heap|
        ensures LifeAt(Apply(g, a), h)
      {
        if ActsOn(a, h) { OwnActKeepsLife(g, a, h); } else { OtherActKeepsLife(g, a, h); }
      }
    }
  }

  lemma {:induction false} LifeReachable(run: seq<Guest>, acts: seq<Act>, n: nat)
    requires IsRun(run, acts) && n < |run|
    ensures LifeInv(run[n])
  {
    hide LifeInv, Enabled, Apply;
    if n == 0 {
      NoLivesYet(run[0]);
    } else {
      LifeReachable(run, acts, n - 1);
      assert Enabled(run[n - 1], acts[n - 1]) && run[n - 1 + 1] == Apply(run[n - 1], acts[n - 1]);
      ActLife(run[n - 1], acts[n - 1]);
    }
  }

  lemma NoLivesYet(g: Guest)
    requires Init(g)
    ensures LifeInv(g)
  {
  }

  /** An execution is registered from its acceptance to the end of its retention, and never again. */
  lemma RetainedUntilSettled(run: seq<Guest>, acts: seq<Act>, n: nat, h: nat)
    requires IsRun(run, acts) && n < |run| && h < |run[n].reg.heap|
    ensures h < |run[n].tasks|
    ensures Registered(run[n].reg, h) <==> !run[n].tasks[h].sup.Settled?
  {
    LifeReachable(run, acts, n);
    hide IsRun;
    assert LifeAt(run[n], h);
  }

  // ----- the first report counts --------------------------------------------------------------

  /** Act m is the first exit report delivered to execution h. */
  predicate FirstReport(acts: seq<Act>, m: nat, h: nat) {
    && m < |acts| && acts[m].Deliver? && acts[m].h == h
    && NoReport(acts, m, h)
  }

  /** What the supervisor holds, or has recorded, is this report. */
  predicate Reports(e: Exec, t: Task, report: ExitReport) {
    && t.reportUsed
    && if t.sup.Waiting? then t.report == Some(report)
       else e.exitCode == report.exitCode && e.exitMsg == report.message
  }

  predicate Unreported(t: Task) {
    t.sup.Waiting? && !t.reportUsed
  }

  /** An act leaves every other execution as it is. */
  lemma OthersKeepTheirOwn(g: Guest, a: Act, h: nat)
    requires Enabled(g, a) && Has(g, h) && !ActsOn(a, h)
    ensures Has(Apply(g, a), h)
    ensures Apply(g, a).reg.heap[h] == g.reg.heap[h] && Apply(g, a).tasks[h] == g.tasks[h]
  {
    hide WellFormed, Admission, ReaderExec, ReaderTask, HeartbeatOn, Reap, Cancel, CompleteExec, NewExec;
  }

  lemma OwnActKeepsReport(g: Guest, a: Act, h: nat, report: ExitReport)
    requires Enabled(g, a) && Has(g, h) && ActsOn(a, h) && Reports(g.reg.heap[h], g.tasks[h], report)
    ensures Has(Apply(g, a), h) && Reports(Apply(g, a).reg.heap[h], Apply(g, a).tasks[h], report)
  {
    hide WellFormed;
  }

  lemma ReportStays(g: Guest, a: Act, h: nat, report: ExitReport)
    requires Enabled(g, a) && Has(g, h) && Reports(g.reg.heap[h], g.tasks[h], report)
    ensures Has(Apply(g, a), h) && Reports(Apply(g, a).reg.heap[h], Apply(g, a).tasks[h], report)
  {
    hide Enabled, Apply, Reports;
    if ActsOn(a, h) { OwnActKeepsReport(g, a, h, report); } else { OthersKeepTheirOwn(g, a, h); }
  }

  lemma StaysUnreported(g: Guest, a: Act, h: nat)
    requires LifeInv(g) && Enabled(g, a) && h < |Apply(g, a).tasks| && !(a.Deliver? && a.h == h)
    requires h < |g.tasks| ==> Unreported(g.tasks[h])
    ensures Unreported(Apply(g, a).tasks[h])
  {
    assert h < |g.tasks| ==> LifeAt(g, h);
    hide WellFormed, Admission, ReaderExec, HeartbeatOn, Reap, Cancel, CompleteExec, LifeInv;
  }

  lemma FirstIsTaken(g: Guest, h: nat, report: ExitReport)
    requires GuestInv(g) && LifeInv(g) && Enabled(g, Deliver(h, report)) && Unreported(g.tasks[h])
    ensures Has(Apply(g, Deliver(h, report)), h)
    ensures Reports(Apply(g, Deliver(h, report)).reg.heap[h], Apply(g, Deliver(h, report)).tasks[h], report)
  {
    hide GuestInv, WellFormed, LogShape, StdoutInv, StderrInv, TerminalInv;
    assert LifeAt(g, h);
    hide LifeInv, Registered;
    At(g, h);
    hide ExecInv;
    assert !g.reg.heap[h].exitReported && g.reg.heap[h].running && !g.tasks[h].reportUsed;
  }

  /** What one act makes of the two possibilities. */
  lemma ReportStep(g: Guest, a: Act, h: nat, report: ExitReport)
    requires GuestInv(g) && LifeInv(g) && Enabled(g, a) && h < |Apply(g, a).tasks|
    requires h < |g.tasks| ==> Unreported(g.tasks[h]) || Reports(g.reg.heap[h], g.tasks[h], report)
    requires a.Deliver? && a.h == h && Unreported(g.tasks[h]) ==> report == a.exit
    ensures h < |Apply(g, a).reg.heap|
    ensures if h >= |g.tasks| || (Unreported(g.tasks[h]) && !(a.Deliver? && a.h == h))
            then Unreported(Apply(g, a).tasks[h])
            else Reports(Apply(g, a).reg.heap[h], Apply(g, a).tasks[h], report)
  {
    ActLife(g, a);
    hide GuestInv, LifeAt, Unreported, Reports, Apply;
    if h >= |g.tasks| {
      assert !(a.Deliver? && a.h == h);
      hide Enabled;
      StaysUnreported(g, a, h);
    } else if Unreported(g.tasks[h]) {
      hide Enabled;
      if a.Deliver? && a.h == h { FirstIsTaken(g, h, a.exit); } else { StaysUnreported(g, a, h); }
    } else {
      hide Enabled;
      ReportStays(g, a, h, report);
    }
  }

  lemma Before(run: seq<Guest>, acts: seq<Act>, n: nat)
    requires IsRun(run, acts) && 0 < n < |run|
    ensures n - 1 < |acts| && Enabled(run[n - 1], acts[n - 1]) && run[n] == Apply(run[n - 1], acts[n - 1])
    ensures GuestInv(run[n - 1]) && LifeInv(run[n - 1])
    ensures |run[n - 1].tasks| == |run[n - 1].reg.heap|
    ensures acts[n - 1].Deliver? ==> acts[n - 1].h < |run[n - 1].tasks|
  {
    hide GuestInv, LifeAt, CallNamed, Apply, Init;
    LifeReachable(run, acts, n - 1);
    Reachable(run, acts, n - 1);
    assert Enabled(run[n - 1], acts[n - 1]) && run[n - 1 + 1] == Apply(run[n - 1], acts[n - 1]);
    hide IsRun, WellFormed;
  }

  /** No report was delivered to h in the first n acts. */
  predicate NoReport(acts: seq<Act>, n: nat, h: nat) {
    n <= |acts| && forall j :: 0 <= j < n ==> !(acts[j].Deliver? && acts[j].h == h)
  }

  /** Nothing was delivered to h in the first n acts, or h carries what act m, the first of them, delivered. */
  predicate ReportKnown(g: Guest, acts: seq<Act>, n: nat, h: nat, m: nat)
    requires n <= |acts| && Has(g, h)
  {
    if Unreported(g.tasks[h]) then NoReport(acts, n, h)
    else m < n && FirstReport(acts, m, h) && Reports(g.reg.heap[h], g.tasks[h], acts[m].exit)
  }

  lemma ReportBegins(g: Guest, acts: seq<Act>, n: nat, h: nat)
    requires GuestInv(g) && LifeInv(g) && n < |acts| && Enabled(g, acts[n]) && !Has(g, h) && NoReport(acts, n, h)
    requires h < |Apply(g, acts[n]).tasks|
    ensures Has(Apply(g, acts[n]), h) && ReportKnown(Apply(g, acts[n]), acts, n + 1, h, n)
  {
    assert !(acts[n].Deliver? && acts[n].h == h);
    ReportStep(g, acts[n], h, ExitReport(0, ""));
    hide GuestInv, LifeInv, Reports, Enabled, Apply;
  }

  lemma ReportGoesOn(g: Guest, acts: seq<Act>, n: nat, h: nat, m: nat) returns (m': nat)
    requires GuestInv(g) && LifeInv(g) && n < |acts| && Enabled(g, acts[n]) && Has(g, h) && ReportKnown(g, acts, n, h, m)
    requires h < |Apply(g, acts[n]).tasks|
    ensures Has(Apply(g, acts[n]), h) && ReportKnown(Apply(g, acts[n]), acts, n + 1, h, m')
  {
    var a := acts[n];
    m' := if Unreported(g.tasks[h]) then n else m;
    var report := if acts[m'].Deliver? then acts[m'].exit else ExitReport(0, "");
    hide GuestInv, LifeInv, Reports, Enabled, Apply;
    ReportStep(g, a, h, report);
    Exclusive(Apply(g, a).reg.heap[h], Apply(g, a).tasks[h], report);
    hide Unreported;
  }

  lemma Exclusive(e: Exec, t: Task, report: ExitReport)
    ensures Reports(e, t, report) ==> !Unreported(t)
  {
  }

  lemma {:induction false} ReportHistory(run: seq<Guest>, acts: seq<Act>, n: nat, h: nat) returns (m: nat)
    requires IsRun(run, acts) && n < |run| && h < |run[n].tasks|
    ensures Has(run[n], h) && ReportKnown(run[n], acts, n, h, m)
  {
    hide LifeInv, GuestInv, ReportKnown, Enabled, Apply, FirstReport, NoReport;
    m := n;
    if n > 0 {
      Before(run, acts, n);
      if h >= |run[n - 1].tasks| {
        NotYetDelivered(run, acts, n - 1, h);
        m := n - 1;
        ReportBegins(run[n - 1], acts, n - 1, h);
      } else {
        m := ReportHistory(run, acts, n - 1, h);
        m := ReportGoesOn(run[n - 1], acts, n - 1, h, m);
      }
    }
  }

  /** Nothing is delivered to an execution before it exists. */
  lemma {:induction false} NotYetDelivered(run: seq<Guest>, acts: seq<Act>, n: nat, h: nat)
    requires IsRun(run, acts) && n < |run| && h >= |run[n].tasks|
    ensures NoReport(acts, n, h)
    ensures n < |acts| ==> !(acts[n].Deliver? && acts[n].h == h)
  {
    if n < |acts| { assert Enabled(run[n], acts[n]); }
    if n > 0 {
      assert Enabled(run[n - 1], acts[n - 1]) && run[n - 1 + 1] == Apply(run[n - 1], acts[n - 1]);
      TasksGrow(run[n - 1], acts[n - 1]);
      NotYetDelivered(run, acts, n - 1, h);
    }
  }

  lemma TasksGrow(g: Guest, a: Act)
    requires Enabled(g, a)
    ensures |Apply(g, a).tasks| >= |g.tasks|
  {
    hide WellFormed, Admission, Register, ReaderExec, HeartbeatOn, Reap, Cancel, CompleteExec;
  }

  /**
   The exit an execution reports is the first one delivered to it: once it is reaped some report was
   delivered before, its exit is that of the first, and that is what the terminal says. A report that
   comes later, however different, leaves no trace.
   */
  lemma FirstReportCounts(run: seq<Guest>, acts: seq<Act>, n: nat, h: nat) returns (m: nat)
    requires IsRun(run, acts) && n < |run| && h < |run[n].reg.heap| && run[n].reg.heap[h].reaped
    ensures m < n && FirstReport(acts, m, h)
    ensures var (e, report) := (run[n].reg.heap[h], acts[m].exit);
      && e.exitCode == report.exitCode && e.exitMsg == report.message
      && (!e.running ==>
            e.history != []
            && Says(e.history[|e.history| - 1], report.exitCode, if e.cancelled then "execution cancelled" else report.message))
  {
    hide IsRun, GuestInv, LogShape, StdoutInv, StderrInv, FirstReport, NoReport;
    Reachable(run, acts, n);
    HasTask(run[n]);
    At(run[n], h);
    m := ReportHistory(run, acts, n, h);
  }

  /** After a report was delivered to h another one changes nothing. */
  lemma LaterReportsChangeNothing(run: seq<Guest>, acts: seq<Act>, m: nat, n: nat, h: nat, later: ExitReport)
    requires IsRun(run, acts) && m < n < |run| && acts[m].Deliver? && acts[m].h == h
    requires Enabled(run[n], Deliver(h, later))
    ensures Apply(run[n], Deliver(h, later)) == run[n]
  {
    var first := ReportHistory(run, acts, n, h);
    hide IsRun, WellFormed;
  }
}
