/** What a later state of the guest keeps of an earlier one: logs only grow, and a stopped execution's log is final. */
module GuestHistory {
  import opened Wrappers
  import opened EventLog
  import opened RegistrySections
  import opened GuestRuns
  import opened GuestLogs
  import opened GuestSafety

  predicate IsPrefix(a: seq<Payload>, b: seq<Payload>) {
    |a| <= |b| && b[..|a|] == a
  }

  /** The same execution, later. */
  predicate ExecLater(e: Exec, e': Exec) {
    && e'.id == e.id && e'.slot == e.slot && e'.meta == e.meta
    && IsPrefix(e.history, e'.history)
    && (!e.running ==> !e'.running && e'.history == e.history)
  }

  predicate Later(heap: seq<Exec>, heap': seq<Exec>) {
    |heap| <= |heap'| && forall h :: 0 <= h < |heap| ==> ExecLater(heap[h], heap'[h])
  }

  lemma LaterTransitive(a: seq<Exec>, b: seq<Exec>, c: seq<Exec>)
    requires Later(a, b) && Later(b, c)
    ensures Later(a, c)
  {
    forall h | 0 <= h < |a|
      ensures ExecLater(a[h], c[h])
    {
      assert ExecLater(a[h], b[h]) && ExecLater(b[h], c[h]);
    }
  }

  lemma LaterReflexive(a: seq<Exec>)
    ensures Later(a, a)
  {
  }

  lemma OneLater(heap: seq<Exec>, h: nat, e: Exec)
    requires h < |heap| && ExecLater(heap[h], e)
    ensures Later(heap, heap[h := e])
  {
  }

  lemma ReaderLater(e: Exec, t: Task, stream: Stream, a: ReaderAct)
    requires PcInv(e, t) && ReaderEnabled(ReaderOf(t, stream), a)
    ensures ExecLater(e, ReaderExec(e, ReaderOf(t, stream), stream, a))
  {
  }

  lemma BeatLater(e: Exec, nanos: int)
    ensures ExecLater(e, HeartbeatOn(e, nanos))
  {
  }

  lemma FlagsLater(e: Exec, report: ExitReport, killed: bool)
    ensures ExecLater(e, Reap(e, report)) && ExecLater(e, Cancel(e, killed))
  {
  }

  lemma CompleteLater(e: Exec)
    requires e.running
    ensures ExecLater(e, CompleteExec(e))
  {
  }

  lemma AppendLater(heap: seq<Exec>, e: Exec)
    ensures Later(heap, heap + [e])
  {
  }

  lemma CallIsLater(g: Guest, c: nat, x: CallAct)
    requires WellFormed(g.reg) && CallEnabled(g, c, x)
    ensures Later(g.reg.heap, CallApply(g, c, x).reg.heap)
  {
    hide Later, Admission, NewExec;
    LaterReflexive(g.reg.heap);
    if x.Record? {
      AppendLater(g.reg.heap, NewExec(g.calls[c].id, g.calls[c].slot, g.calls[c].meta, x.pid));
    }
  }

  lemma ActIsLater(g: Guest, a: Act)
    requires GuestInv(g) && Enabled(g, a)
    ensures Later(g.reg.heap, Apply(g, a).reg.heap)
  {
    hide GuestInv, Later, CallApply, ReaderExec, HeartbeatOn, Reap, Cancel, Complete;
    if a.ReaderStep? || a.Beat? || a.StartReap? || a.CancelExecution? || a.FinishReap? {
      ExecActIsLater(g, a);
    } else if a.CallStep? {
      CallIsLater(g, a.c, a.call);
    } else {
      LaterReflexive(g.reg.heap);
    }
  }

  lemma ExecActIsLater(g: Guest, a: Act)
    requires GuestInv(g) && Enabled(g, a)
    requires a.ReaderStep? || a.Beat? || a.StartReap? || a.CancelExecution? || a.FinishReap?
    ensures Later(g.reg.heap, Apply(g, a).reg.heap)
  {
    At(g, a.h);
    hide GuestInv, ExecInv, ExecLater, Later;
    var e, t := g.reg.heap[a.h], g.tasks[a.h];
    if a.ReaderStep? {
      ReaderLater(e, t, a.stream, a.read);
      OneLater(g.reg.heap, a.h, ReaderExec(e, ReaderOf(t, a.stream), a.stream, a.read));
    } else if a.Beat? {
      BeatLater(e, a.nanos);
      OneLater(g.reg.heap, a.h, HeartbeatOn(e, a.nanos));
    } else if a.StartReap? {
      FlagsLater(e, t.report.value, false);
      OneLater(g.reg.heap, a.h, Reap(e, t.report.value));
    } else if a.CancelExecution? {
      FlagsLater(e, ExitReport(0, ""), a.killed);
      OneLater(g.reg.heap, a.h, Cancel(e, a.killed));
    } else {
      CompleteLater(e);
      OneLater(g.reg.heap, a.h, CompleteExec(e));
    }
  }

  lemma {:induction false} RunIsLater(run: seq<Guest>, acts: seq<Act>, n: nat, m: nat)
    requires IsRun(run, acts) && n <= m < |run|
    ensures Later(run[n].reg.heap, run[m].reg.heap)
  {
    hide GuestInv, Init, Enabled, Apply, Later;
    if n == m {
      LaterReflexive(run[n].reg.heap);
    } else {
      RunIsLater(run, acts, n, m - 1);
      Reachable(run, acts, m - 1);
      assert Enabled(run[m - 1], acts[m - 1]) && run[m - 1 + 1] == Apply(run[m - 1], acts[m - 1]);
      ActIsLater(run[m - 1], acts[m - 1]);
      LaterTransitive(run[n].reg.heap, run[m - 1].reg.heap, run[m].reg.heap);
    }
  }
}
