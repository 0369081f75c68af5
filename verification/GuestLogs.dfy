/** What one execution's log and its two readers agree on, kept by every act on that execution. */
module GuestLogs {
  import opened Wrappers
  import opened EventLog
  import opened RegistrySections
  import opened GuestRuns

  predicate Ordinary(p: Payload) {
    p.LogChunk? || p.Heartbeat?
  }

  /** The log opens with phase "running" and everything between it and `end` is output or heartbeats. */
  predicate Opened(history: seq<Payload>, end: nat) {
    && 1 <= end <= |history| && history[0] == PhaseChange("running")
    && forall i :: 1 <= i < end ==> Ordinary(history[i])
  }

  /** The shape of an execution's log: closed by "completed" and the terminal iff it stopped running. */
  predicate LogShape(e: Exec) {
    var n := |e.history|;
    if e.running then Opened(e.history, n)
    else
      && n >= 3 && Opened(e.history, n - 2)
      && e.history[n - 2] == PhaseChange("completed")
      && e.history[n - 1].TerminalResult?
  }

  function Pending(r: Reader): seq<byte> {
    if r.pc.Holding? then r.pc.data else []
  }

  predicate Failed(r: Reader) {
    r.pc == Done(Broken)
  }

  predicate StdoutInv(carried: seq<byte>, t: Task) {
    carried + Pending(t.stdout) == t.stdout.got
  }

  /** The stderr stream carries its pipe, and on top of it the message of every failed read. */
  predicate StderrInv(carried: seq<byte>, t: Task) {
    && |carried| + |Pending(t.stderr)| == |t.stderr.got| + t.injected
    && (t.injected == 0 ==> carried + Pending(t.stderr) == t.stderr.got)
    && (t.injected == 0 <==> !Failed(t.stdout) && !Failed(t.stderr))
    && (t.stdout.pc.Failing? ==> t.stdout.pc.message != [])
    && (t.stderr.pc.Failing? ==> t.stderr.pc.message != [])
  }

  predicate PcInv(e: Exec, t: Task) {
    && (e.running <==> t.sup.Waiting? || t.sup.Joining?)
    && (e.reaped <==> !t.sup.Waiting?)
    && (e.phase == if e.running then "running" else "completed")
    && (!e.running ==> t.stdout.pc.Done? && t.stderr.pc.Done?)
  }

  /** What the terminal of a stopped execution has to say. */
  function FinalPayload(e: Exec): Payload {
    TerminalResult(ClampExitCode(e.exitCode), if e.cancelled then "execution cancelled" else e.exitMsg)
  }

  predicate TerminalInv(e: Exec) {
    !e.running ==> e.history != [] && e.history[|e.history| - 1] == FinalPayload(e)
  }

  predicate ExecInv(e: Exec, t: Task) {
    && LogShape(e) && PcInv(e, t) && TerminalInv(e)
    && StdoutInv(StreamBytes(e.history, Stdout), t)
    && StderrInv(StreamBytes(e.history, Stderr), t)
  }

  lemma OrdinaryKeepsShape(e: Exec, p: Payload)
    requires LogShape(e) && e.running && Ordinary(p)
    ensures LogShape(Append(e, p))
  {
  }

  lemma StdoutKeeps(carried: seq<byte>, t: Task, stream: Stream, a: ReaderAct)
    requires StdoutInv(carried, t) && ReaderEnabled(ReaderOf(t, stream), a)
    ensures StdoutInv(carried + CarriedOn(Stdout, t, stream, a), ReaderTask(t, stream, a))
  {
  }

  lemma StderrKeeps(carried: seq<byte>, t: Task, stream: Stream, a: ReaderAct)
    requires StderrInv(carried, t) && ReaderEnabled(ReaderOf(t, stream), a)
    ensures StderrInv(carried + CarriedOn(Stderr, t, stream, a), ReaderTask(t, stream, a))
  {
  }

  /** What a reader's act puts on the stream `on`. */
  function CarriedOn(on: Stream, t: Task, stream: Stream, a: ReaderAct): seq<byte>
    requires ReaderEnabled(ReaderOf(t, stream), a)
  {
    var p := ReaderPayload(ReaderOf(t, stream), stream, a);
    if p.Some? && p.value.stream == on then p.value.data else []
  }

  lemma ReaderKeepsRest(e: Exec, t: Task, stream: Stream, a: ReaderAct)
    requires PcInv(e, t) && TerminalInv(e) && ReaderEnabled(ReaderOf(t, stream), a)
    ensures e.running
    ensures PcInv(ReaderExec(e, ReaderOf(t, stream), stream, a), ReaderTask(t, stream, a))
    ensures TerminalInv(ReaderExec(e, ReaderOf(t, stream), stream, a))
  {
  }

  lemma ReaderKeeps(e: Exec, t: Task, stream: Stream, a: ReaderAct)
    requires ExecInv(e, t) && ReaderEnabled(ReaderOf(t, stream), a)
    ensures ExecInv(ReaderExec(e, ReaderOf(t, stream), stream, a), ReaderTask(t, stream, a))
  {
    StdoutKeeps(StreamBytes(e.history, Stdout), t, stream, a);
    StderrKeeps(StreamBytes(e.history, Stderr), t, stream, a);
    ReaderKeepsRest(e, t, stream, a);
    hide StdoutInv, StderrInv, PcInv, TerminalInv, LogShape, ReaderTask;
    var p := ReaderPayload(ReaderOf(t, stream), stream, a);
    if p.Some? {
      StreamBytesAppend(e.history, p.value, Stdout);
      StreamBytesAppend(e.history, p.value, Stderr);
      OrdinaryKeepsShape(e, p.value);
    } else {
      assert forall s: Stream :: StreamBytes(e.history, s) + [] == StreamBytes(e.history, s);
    }
  }

  lemma BeatKeeps(e: Exec, t: Task, nanos: int)
    requires ExecInv(e, t)
    ensures ExecInv(HeartbeatOn(e, nanos), t)
  {
    hide StdoutInv, StderrInv;
    StreamBytesAppend(e.history, Heartbeat(nanos), Stdout);
    StreamBytesAppend(e.history, Heartbeat(nanos), Stderr);
    assert forall s: Stream :: StreamBytes(e.history, s) + [] == StreamBytes(e.history, s);
    if e.running { OrdinaryKeepsShape(e, Heartbeat(nanos)); }
  }

  lemma ReapKeeps(e: Exec, t: Task, report: ExitReport)
    requires ExecInv(e, t) && t.sup.Waiting?
    ensures ExecInv(Reap(e, report), t.(sup := Joining, report := None))
  {
  }

  lemma CancelKeeps(e: Exec, t: Task, killed: bool)
    requires ExecInv(e, t)
    ensures ExecInv(Cancel(e, killed), t)
  {
  }

  lemma DeliverKeeps(e: Exec, t: Task, exit: ExitReport)
    requires ExecInv(e, t)
    ensures ExecInv(e, t.(reportUsed := true, report := Some(exit)))
  {
  }

  lemma SettleKeeps(e: Exec, t: Task)
    requires ExecInv(e, t) && t.sup.Armed?
    ensures ExecInv(e, t.(sup := Settled))
  {
  }

  lemma CompleteKeeps(e: Exec, t: Task)
    requires ExecInv(e, t) && t.sup.Joining? && t.stdout.pc.Done? && t.stderr.pc.Done?
    ensures ExecInv(CompleteExec(e), t.(sup := Armed))
  {
    var first := e.history + [PhaseChange("completed")];
    var last := CompleteExec(e).history[|e.history| + 1];
    assert CompleteExec(e).history == first + [last];
    forall stream: Stream
      ensures StreamBytes(CompleteExec(e).history, stream) == StreamBytes(e.history, stream)
    {
      StreamBytesAppend(e.history, PhaseChange("completed"), stream);
      StreamBytesAppend(first, last, stream);
    }
  }

  lemma NewKeeps(id: string, slot: nat, meta: JobMeta, pid: int)
    ensures ExecInv(NewExec(id, slot, meta, pid), NewTask())
  {
    var e := NewExec(id, slot, meta, pid);
    assert e.history == [] + [PhaseChange("running")];
    StreamBytesAppend([], PhaseChange("running"), Stdout);
    StreamBytesAppend([], PhaseChange("running"), Stderr);
  }
}
