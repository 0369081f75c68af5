/** Whole-run properties of the guest: every event log, slot and drain accounting, admission. */
module GuestSafety {
  import opened Wrappers
  import opened EventLog
  import opened RegistrySections
  import opened GuestRuns
  import opened GuestLogs
  import opened GuestAccounts

  predicate InSection(pc: CallPc) {
    !pc.Entering? && !pc.Answered?
  }

  /** Between its first admission and its answer, a call counts on its slot staying free. */
  predicate Preparing(pc: CallPc) {
    pc.Building? || pc.Built? || pc.Launching? || pc.Launched?
  }

  predicate CallInv(call: Call, c: nat, locks: map<nat, nat>, slots: map<nat, string>) {
    && (InSection(call.pc) ==> call.slot in locks && locks[call.slot] == c)
    && (Preparing(call.pc) ==> call.slot !in slots)
  }

  predicate CallsInv(calls: seq<Call>, locks: map<nat, nat>, slots: map<nat, string>) {
    forall c :: 0 <= c < |calls| ==> CallInv(calls[c], c, locks, slots)
  }

  predicate ExecsInv(heap: seq<Exec>, tasks: seq<Task>) {
    && |tasks| == |heap|
    && forall h :: 0 <= h < |heap| ==> ExecInv(heap[h], tasks[h])
  }

  predicate GuestInv(g: Guest) {
    RegInv(g.reg) && ExecsInv(g.reg.heap, g.tasks) && CallsInv(g.calls, g.locks, g.reg.slots)
  }

  lemma ExecsUpdate(heap: seq<Exec>, tasks: seq<Task>, h: nat, e: Exec, t: Task)
    requires ExecsInv(heap, tasks) && h < |heap| && ExecInv(e, t)
    ensures ExecsInv(heap[h := e], tasks[h := t])
  {
    hide ExecInv;
  }

  lemma ExecsTaskUpdate(heap: seq<Exec>, tasks: seq<Task>, h: nat, t: Task)
    requires ExecsInv(heap, tasks) && h < |heap| && ExecInv(heap[h], t)
    ensures ExecsInv(heap, tasks[h := t])
  {
    hide ExecInv;
  }

  lemma ExecsHeapUpdate(heap: seq<Exec>, tasks: seq<Task>, h: nat, e: Exec)
    requires ExecsInv(heap, tasks) && h < |heap| && ExecInv(e, tasks[h])
    ensures ExecsInv(heap[h := e], tasks)
  {
    hide ExecInv;
  }

  lemma ExecsAppend(heap: seq<Exec>, tasks: seq<Task>, e: Exec, t: Task)
    requires ExecsInv(heap, tasks) && ExecInv(e, t)
    ensures ExecsInv(heap + [e], tasks + [t])
  {
    hide ExecInv;
  }

  lemma CallsKeepWhenSlotsShrink(g: Guest, slots: map<nat, string>)
    requires CallsInv(g.calls, g.locks, g.reg.slots) && slots.Keys <= g.reg.slots.Keys
    ensures CallsInv(g.calls, g.locks, slots)
  {
    forall c | 0 <= c < |g.calls|
      ensures CallInv(g.calls[c], c, g.locks, slots)
    {
      assert CallInv(g.calls[c], c, g.locks, g.reg.slots);
    }
  }

  // ----- calls ------------------------------------------------------------------------------

  lemma GotoKeeps(g: Guest, c: nat, pc: CallPc)
    requires CallsInv(g.calls, g.locks, g.reg.slots) && c < |g.calls| && InSection(g.calls[c].pc)
    requires Preparing(pc) ==> g.calls[c].slot !in g.reg.slots
    ensures CallsInv(Goto(g, c, pc).calls, g.locks, g.reg.slots)
  {
    var calls := Goto(g, c, pc).calls;
    forall d | 0 <= d < |calls|
      ensures CallInv(calls[d], d, g.locks, g.reg.slots)
    {
      assert CallInv(g.calls[d], d, g.locks, g.reg.slots);
    }
  }

  lemma AnswerKeeps(g: Guest, c: nat, outcome: Option<Outcome>, slots: map<nat, string>)
    requires CallsInv(g.calls, g.locks, g.reg.slots) && c < |g.calls| && InSection(g.calls[c].pc)
    requires slots.Keys <= g.reg.slots.Keys + {g.calls[c].slot}
    ensures CallsInv(Answer(g, c, outcome).calls, Answer(g, c, outcome).locks, slots)
  {
    var g' := Answer(g, c, outcome);
    assert CallInv(g.calls[c], c, g.locks, g.reg.slots);
    forall d | 0 <= d < |g'.calls|
      ensures CallInv(g'.calls[d], d, g'.locks, slots)
    {
      assert CallInv(g.calls[d], d, g.locks, g.reg.slots);
    }
  }

  lemma LockKeeps(g: Guest, c: nat)
    requires CallsInv(g.calls, g.locks, g.reg.slots) && CallEnabled(g, c, Lock) && WellFormed(g.reg)
    ensures CallsInv(CallApply(g, c, Lock).calls, CallApply(g, c, Lock).locks, g.reg.slots)
  {
    var g' := CallApply(g, c, Lock);
    forall d | 0 <= d < |g'.calls|
      ensures CallInv(g'.calls[d], d, g'.locks, g.reg.slots)
    {
      assert CallInv(g.calls[d], d, g.locks, g.reg.slots);
    }
  }

  /** g with one more execution, recorded by call c. */
  function Recorded(g: Guest, c: nat, q: Reg): Guest
    requires c < |g.calls|
  {
    Answer(g, c, Some(Accepted)).(reg := q, tasks := g.tasks + [NewTask()])
  }

  lemma RecordResult(g: Guest, c: nat, pid: int)
    requires CallEnabled(g, c, Record(pid)) && WellFormed(g.reg)
    requires Admission(g.reg, g.calls[c].id, g.calls[c].slot) == Accepted
    ensures CallApply(g, c, Record(pid))
         == Recorded(g, c, Register(g.reg, g.calls[c].id, g.calls[c].slot, g.calls[c].meta, pid))
  {
    hide Admission, Register;
  }

  lemma RecordedKeeps(g: Guest, c: nat, q: Reg, e: Exec)
    requires ExecsInv(g.reg.heap, g.tasks) && CallsInv(g.calls, g.locks, g.reg.slots)
    requires c < |g.calls| && InSection(g.calls[c].pc)
    requires q.heap == g.reg.heap + [e] && q.slots.Keys == g.reg.slots.Keys + {g.calls[c].slot}
    requires RegInv(q) && ExecInv(e, NewTask())
    ensures GuestInv(Recorded(g, c, q))
  {
    hide RegInv, ExecInv, ExecsInv, CallsInv;
    ExecsAppend(g.reg.heap, g.tasks, e, NewTask());
    AnswerKeeps(g, c, Some(Accepted), q.slots);
  }

  lemma RecordKeeps(g: Guest, c: nat, pid: int)
    requires GuestInv(g) && CallEnabled(g, c, Record(pid)) && WellFormed(g.reg)
    requires Admission(g.reg, g.calls[c].id, g.calls[c].slot) == Accepted
    ensures GuestInv(CallApply(g, c, Record(pid)))
  {
    hide RegInv, ExecInv, ExecsInv, CallsInv, Recorded;
    RecordResult(g, c, pid);
    var call := g.calls[c];
    RegisterKeeps(g.reg, call.id, call.slot, call.meta, pid);
    NewKeeps(call.id, call.slot, call.meta, pid);
    hide CallApply, Admission;
    RecordedKeeps(g, c, Register(g.reg, call.id, call.slot, call.meta, pid), NewExec(call.id, call.slot, call.meta, pid));
  }

  lemma AdmittedIsFree(r: Reg, id: string, slot: nat)
    requires WellFormed(r)
    ensures Admission(r, id, slot) == Accepted ==> slot !in r.slots && id !in r.byId && !r.draining
  {
  }

  /** A call that records nothing answers or goes on, and goes on preparing only on a free slot. */
  lemma QuietCallResult(g: Guest, c: nat, a: CallAct) returns (pc: CallPc)
    requires WellFormed(g.reg) && CallEnabled(g, c, a) && !a.Lock?
    requires a.Record? ==> Admission(g.reg, g.calls[c].id, g.calls[c].slot) != Accepted
    ensures CallApply(g, c, a) == if pc.Answered? then Answer(g, c, pc.outcome) else Goto(g, c, pc)
    ensures InSection(g.calls[c].pc)
    ensures Preparing(pc) ==> Preparing(g.calls[c].pc) || Admission(g.reg, g.calls[c].id, g.calls[c].slot) == Accepted
  {
    hide WellFormed, Admission, Register;
    pc := CallApply(g, c, a).calls[c].pc;
  }

  lemma QuietCallKeeps(g: Guest, c: nat, a: CallAct)
    requires GuestInv(g) && WellFormed(g.reg) && CallEnabled(g, c, a) && !a.Lock?
    requires a.Record? ==> Admission(g.reg, g.calls[c].id, g.calls[c].slot) != Accepted
    ensures GuestInv(CallApply(g, c, a))
  {
    assert CallInv(g.calls[c], c, g.locks, g.reg.slots);
    AdmittedIsFree(g.reg, g.calls[c].id, g.calls[c].slot);
    hide RegInv, ExecsInv, CallsInv, Admission, WellFormed;
    var pc := QuietCallResult(g, c, a);
    hide CallApply, CallEnabled, InSection, Preparing;
    if pc.Answered? { AnswerKeeps(g, c, pc.outcome, g.reg.slots); } else { GotoKeeps(g, c, pc); }
  }

  lemma CallKeeps(g: Guest, c: nat, a: CallAct)
    requires GuestInv(g) && WellFormed(g.reg) && CallEnabled(g, c, a)
    ensures GuestInv(CallApply(g, c, a))
  {
    if a.Lock? {
      hide RegInv, ExecsInv, CallsInv;
      LockKeeps(g, c);
    } else if a.Record? && Admission(g.reg, g.calls[c].id, g.calls[c].slot) == Accepted {
      RecordKeeps(g, c, a.pid);
    } else {
      QuietCallKeeps(g, c, a);
    }
  }

  // ----- executions -------------------------------------------------------------------------

  predicate SameLife(e: Exec, e': Exec) {
    e'.id == e.id && e'.slot == e.slot && e'.running == e.running
  }

  lemma At(g: Guest, h: nat)
    requires GuestInv(g) && Has(g, h)
    ensures ExecInv(g.reg.heap[h], g.tasks[h])
    ensures PcInv(g.reg.heap[h], g.tasks[h])
  {
    hide RegInv, CallsInv, LogShape, StdoutInv, StderrInv;
  }

  lemma HasTask(g: Guest)
    requires GuestInv(g)
    ensures |g.tasks| == |g.reg.heap|
  {
    hide RegInv, CallsInv, ExecInv;
  }

  lemma ExecAndTaskKeep(g: Guest, h: nat, e: Exec, t: Task)
    requires GuestInv(g) && Has(g, h) && ExecInv(e, t) && SameLife(g.reg.heap[h], e)
    ensures GuestInv(g.(reg := SetExec(g.reg, h, e), tasks := g.tasks[h := t]))
  {
    hide RegInv, ExecInv, ExecsInv, CallsInv;
    QuietUpdateKeeps(g.reg, h, e);
    ExecsUpdate(g.reg.heap, g.tasks, h, e, t);
  }

  lemma ExecKeeps(g: Guest, h: nat, e: Exec)
    requires GuestInv(g) && Has(g, h) && ExecInv(e, g.tasks[h]) && SameLife(g.reg.heap[h], e)
    ensures GuestInv(g.(reg := SetExec(g.reg, h, e)))
  {
    hide RegInv, ExecInv, ExecsInv, CallsInv;
    QuietUpdateKeeps(g.reg, h, e);
    ExecsHeapUpdate(g.reg.heap, g.tasks, h, e);
  }

  lemma TaskKeeps(g: Guest, h: nat, t: Task)
    requires GuestInv(g) && Has(g, h) && ExecInv(g.reg.heap[h], t)
    ensures GuestInv(g.(tasks := g.tasks[h := t]))
  {
    hide RegInv, ExecInv, ExecsInv, CallsInv;
    ExecsTaskUpdate(g.reg.heap, g.tasks, h, t);
  }

  lemma ReaderActKeeps(g: Guest, h: nat, stream: Stream, r: ReaderAct)
    requires GuestInv(g) && Enabled(g, ReaderStep(h, stream, r))
    ensures GuestInv(Apply(g, ReaderStep(h, stream, r)))
  {
    hide GuestInv, ExecInv;
    At(g, h);
    ReaderKeeps(g.reg.heap[h], g.tasks[h], stream, r);
    ExecAndTaskKeep(g, h, ReaderExec(g.reg.heap[h], ReaderOf(g.tasks[h], stream), stream, r),
                    ReaderTask(g.tasks[h], stream, r));
  }

  lemma BeatActKeeps(g: Guest, h: nat, nanos: int)
    requires GuestInv(g) && Enabled(g, Beat(h, nanos))
    ensures GuestInv(Apply(g, Beat(h, nanos)))
  {
    hide GuestInv, ExecInv;
    At(g, h);
    BeatKeeps(g.reg.heap[h], g.tasks[h], nanos);
    ExecKeeps(g, h, HeartbeatOn(g.reg.heap[h], nanos));
  }

  lemma CancelActKeeps(g: Guest, h: nat, killed: bool)
    requires GuestInv(g) && Enabled(g, CancelExecution(h, killed))
    ensures GuestInv(Apply(g, CancelExecution(h, killed)))
  {
    hide GuestInv, ExecInv;
    At(g, h);
    CancelKeeps(g.reg.heap[h], g.tasks[h], killed);
    ExecKeeps(g, h, Cancel(g.reg.heap[h], killed));
  }

  lemma DeliverActKeeps(g: Guest, h: nat, exit: ExitReport)
    requires GuestInv(g) && Enabled(g, Deliver(h, exit))
    ensures GuestInv(Apply(g, Deliver(h, exit)))
  {
    hide GuestInv, ExecInv;
    At(g, h);
    DeliverKeeps(g.reg.heap[h], g.tasks[h], exit);
    TaskKeeps(g, h, g.tasks[h].(reportUsed := true, report := Some(exit)));
  }

  lemma StartReapKeeps(g: Guest, h: nat)
    requires GuestInv(g) && Enabled(g, StartReap(h))
    ensures GuestInv(Apply(g, StartReap(h)))
  {
    hide GuestInv, ExecInv;
    At(g, h);
    var report := g.tasks[h].report.value;
    ReapKeeps(g.reg.heap[h], g.tasks[h], report);
    ExecAndTaskKeep(g, h, Reap(g.reg.heap[h], report), g.tasks[h].(sup := Joining, report := None));
  }

  lemma FinishKeeps(g: Guest, h: nat)
    requires GuestInv(g) && Enabled(g, FinishReap(h))
    ensures GuestInv(Apply(g, FinishReap(h)))
  {
    At(g, h);
    hide RegInv, ExecInv, ExecsInv, CallsInv;
    CompleteKeeps(g.reg.heap[h], g.tasks[h]);
    CompletionKeeps(g.reg, h);
    ExecsUpdate(g.reg.heap, g.tasks, h, CompleteExec(g.reg.heap[h]), g.tasks[h].(sup := Armed));
    CallsKeepWhenSlotsShrink(g, g.reg.slots - {g.reg.heap[h].slot});
  }

  lemma ExpireStepKeeps(g: Guest, h: nat)
    requires GuestInv(g) && Enabled(g, RetentionEnds(h))
    ensures GuestInv(Apply(g, RetentionEnds(h)))
  {
    hide RegInv, ExecInv, ExecsInv, CallsInv, WellFormed;
    At(g, h);
    SettleKeeps(g.reg.heap[h], g.tasks[h]);
    hide PcInv;
    ExpireKeeps(g.reg, h);
    ExecsTaskUpdate(g.reg.heap, g.tasks, h, g.tasks[h].(sup := Settled));
  }

  lemma NewCallKeeps(g: Guest, id: string, slot: nat, meta: JobMeta)
    requires CallsInv(g.calls, g.locks, g.reg.slots)
    ensures CallsInv(g.calls + [Call(id, slot, meta, Entering)], g.locks, g.reg.slots)
  {
  }

  lemma ActKeeps(g: Guest, a: Act)
    requires GuestInv(g) && Enabled(g, a)
    ensures GuestInv(Apply(g, a))
  {
    hide RegInv, ExecsInv, CallsInv;
    match a {
      case ReaderStep(h, stream, r) => ReaderActKeeps(g, h, stream, r);
      case Beat(h, nanos) => BeatActKeeps(g, h, nanos);
      case Deliver(h, exit) => DeliverActKeeps(g, h, exit);
      case StartReap(h) => StartReapKeeps(g, h);
      case FinishReap(h) => FinishKeeps(g, h);
      case RetentionEnds(h) => ExpireStepKeeps(g, h);
      case CancelExecution(h, killed) => CancelActKeeps(g, h, killed);
      case StartDrain => DrainKeeps(g.reg);
      case NewCall(id, slot, meta) => NewCallKeeps(g, id, slot, meta);
      case CallStep(c, x) => CallKeeps(g, c, x);
    }
  }

  lemma InitHolds(g: Guest)
    requires Init(g)
    ensures GuestInv(g)
  {
  }

  lemma {:induction false} Reachable(run: seq<Guest>, acts: seq<Act>, n: nat)
    requires IsRun(run, acts) && n < |run|
    ensures GuestInv(run[n])
  {
    hide GuestInv, Init, Enabled, Apply;
    if n == 0 {
      InitHolds(run[0]);
    } else {
      Reachable(run, acts, n - 1);
      assert Enabled(run[n - 1], acts[n - 1]) && run[n - 1 + 1] == Apply(run[n - 1], acts[n - 1]);
      ActKeeps(run[n - 1], acts[n - 1]);
    }
  }

  // ----- what every run guarantees ----------------------------------------------------------

  predicate Registered(r: Reg, h: nat)
    requires h < |r.heap|
  {
    r.heap[h].id in r.byId && r.byId[r.heap[h].id] == h
  }

  /** Some slot entry leads, through its id, to execution h. */
  predicate Occupies(r: Reg, h: nat, slot: nat) {
    slot in r.slots && r.slots[slot] in r.byId && r.byId[r.slots[slot]] == h
  }

  predicate IsTerminal(p: Payload) {
    p.TerminalResult?
  }

  lemma ShapeInWords(e: Exec)
    requires LogShape(e)
    ensures e.history != [] && e.history[0] == PhaseChange("running")
    ensures !e.running <==> exists i :: 0 <= i < |e.history| && IsTerminal(e.history[i])
    ensures forall i :: 0 <= i < |e.history| && IsTerminal(e.history[i]) ==>
              i == |e.history| - 1 && i >= 2 && e.history[i - 1] == PhaseChange("completed")
  {
    if !e.running {
      assert IsTerminal(e.history[|e.history| - 1]);
    }
    forall i | 0 <= i < |e.history| && IsTerminal(e.history[i])
      ensures !e.running && i == |e.history| - 1
    {
      assert !Ordinary(e.history[i]);
    }
  }

  /**
   In every interleaving of both readers, heartbeats, cancels and the supervisor a log opens with
   phase "running"; a terminal is in it iff the execution stopped, is its only one, comes last and
   right after phase "completed"; and the i-th retained event bears sequence i + 1.
   */
  lemma LogsKeepTheirShape(run: seq<Guest>, acts: seq<Act>, n: nat, h: nat)
    requires IsRun(run, acts) && n < |run| && h < |run[n].reg.heap|
    ensures var e := run[n].reg.heap[h];
      && e.history != [] && e.history[0] == PhaseChange("running")
      && (!e.running <==> exists i :: 0 <= i < |e.history| && IsTerminal(e.history[i]))
      && (forall i :: 0 <= i < |e.history| && IsTerminal(e.history[i]) ==>
            i == |e.history| - 1 && i >= 2 && e.history[i - 1] == PhaseChange("completed"))
      && (forall i :: 0 <= i < |e.history| ==> Retained(e.history)[i].sequence == i + 1)
  {
    Reachable(run, acts, n);
    hide IsRun, RegInv, CallsInv, StdoutInv, StderrInv, LogShape;
    At(run[n], h);
    ShapeInWords(run[n].reg.heap[h]);
  }

  /**
   A terminal with this message for this exit: a code between 0 and the largest 32-bit integer is reported
   as it is, any other as -1, so that exactly a zero exit reads as success.
   */
  predicate Says(p: Payload, exitCode: int, message: string) {
    && p.TerminalResult? && p.message == message
    && (0 <= exitCode <= 0x7FFF_FFFF ==> p.exitCode == exitCode)
    && (exitCode < 0 || exitCode > 0x7FFF_FFFF ==> p.exitCode == -1)
    && (p.exitCode == 0 <==> exitCode == 0)
  }

  /**
   The terminal reports the exit the supervisor recorded, clamped to the exit code range, and says
   "execution cancelled" exactly when a cancel had killed the process group before.
   */
  lemma TerminalReportsTheExit(run: seq<Guest>, acts: seq<Act>, n: nat, h: nat)
    requires IsRun(run, acts) && n < |run| && h < |run[n].reg.heap| && !run[n].reg.heap[h].running
    ensures var e := run[n].reg.heap[h];
      && e.reaped && e.history != []
      && Says(e.history[|e.history| - 1], e.exitCode, if e.cancelled then "execution cancelled" else e.exitMsg)
  {
    hide IsRun, GuestInv, LogShape, StdoutInv, StderrInv;
    Reachable(run, acts, n);
    HasTask(run[n]);
    At(run[n], h);
  }

  /**
   The stdout chunks always concatenate to what its pipe delivered, but for a chunk read and not yet
   appended. The stderr chunks do so for their pipe exactly when no read failed: the message of a
   failed read of either pipe goes to the stderr stream.
   */
  lemma StreamsCarryTheirPipes(run: seq<Guest>, acts: seq<Act>, n: nat, h: nat)
    requires IsRun(run, acts) && n < |run| && h < |run[n].reg.heap|
    ensures h < |run[n].tasks|
    ensures var (e, t) := (run[n].reg.heap[h], run[n].tasks[h]);
      && StreamBytes(e.history, Stdout) + Pending(t.stdout) == t.stdout.got
      && (StreamBytes(e.history, Stderr) + Pending(t.stderr) == t.stderr.got
          <==> !Failed(t.stdout) && !Failed(t.stderr))
  {
    Reachable(run, acts, n);
    hide IsRun, RegInv, CallsInv, LogShape;
    At(run[n], h);
    var (e, t) := (run[n].reg.heap[h], run[n].tasks[h]);
    if StreamBytes(e.history, Stderr) + Pending(t.stderr) == t.stderr.got {
      assert |StreamBytes(e.history, Stderr) + Pending(t.stderr)| == |t.stderr.got|;
    }
  }

  /**
   A stopped execution has nothing left unread: both readers ended before the terminal was appended, so
   the log carries all of stdout, and all of stderr exactly when no read failed.
   */
  lemma TerminalFollowsAllOutput(run: seq<Guest>, acts: seq<Act>, n: nat, h: nat)
    requires IsRun(run, acts) && n < |run| && h < |run[n].reg.heap| && !run[n].reg.heap[h].running
    ensures h < |run[n].tasks| && StreamBytes(run[n].reg.heap[h].history, Stdout) == run[n].tasks[h].stdout.got
    ensures var (e, t) := (run[n].reg.heap[h], run[n].tasks[h]);
      StreamBytes(e.history, Stderr) == t.stderr.got <==> !Failed(t.stdout) && !Failed(t.stderr)
  {
    StreamsCarryTheirPipes(run, acts, n, h);
    Reachable(run, acts, n);
    hide IsRun, RegInv, CallsInv, LogShape;
    At(run[n], h);
  }

  /**
   The registry's books balance: the active count is the number of taken slots and of running
   executions, and the drained channel is closed iff draining and idle, and at most once ever.
   */
  lemma BooksBalance(run: seq<Guest>, acts: seq<Act>, n: nat)
    requires IsRun(run, acts) && n < |run|
    ensures var r := run[n].reg;
      && r.activeCount == |r.slots| == CountRunning(r.heap)
      && (r.drainedClosed <==> r.draining && r.activeCount == 0)
      && r.closes == if r.drainedClosed then 1 else 0
  {
    Reachable(run, acts, n);
    hide IsRun, IdsInv, RunningInv, SlotsInv, ExecsInv, CallsInv;
  }

  /**
   A slot entry leads to h iff h runs on that slot. So an execution whose terminal is out, or that
   the registry forgot, holds no slot.
   */
  lemma SlotIffRunning(run: seq<Guest>, acts: seq<Act>, n: nat, h: nat, slot: nat)
    requires IsRun(run, acts) && n < |run| && h < |run[n].reg.heap|
    ensures var r := run[n].reg;
      && (Occupies(r, h, slot) <==> r.heap[h].running && r.heap[h].slot == slot)
      && (!Registered(r, h) ==> !r.heap[h].running)
      && (slot in r.slots ==> r.slots[slot] in r.byId && Occupies(r, r.byId[r.slots[slot]], slot))
  {
    Reachable(run, acts, n);
    hide IsRun, CountsInv, ExecsInv, CallsInv;
    var r := run[n].reg;
    if r.heap[h].running { assert Holds(r, h); }
    if slot in r.slots { assert Served(r, slot); }
  }

  /** Two executions under one id: the earlier one has stopped and left the registry. */
  lemma OneRetainedExecutionPerId(run: seq<Guest>, acts: seq<Act>, n: nat, h1: nat, h2: nat)
    requires IsRun(run, acts) && n < |run| && h1 < h2 < |run[n].reg.heap|
    requires run[n].reg.heap[h1].id == run[n].reg.heap[h2].id
    ensures !Registered(run[n].reg, h1) && !run[n].reg.heap[h1].running
  {
    Reachable(run, acts, n);
    hide IsRun, CountsInv, SlotsInv, ExecsInv, CallsInv;
  }

  /**
   While a call prepares its slot, which wipes that slot's directories, no execution runs on the slot
   and no other call is anywhere between its admission and its answer on it.
   */
  lemma PreparationIsExclusive(run: seq<Guest>, acts: seq<Act>, n: nat, c: nat)
    requires IsRun(run, acts) && n < |run| && c < |run[n].calls| && run[n].calls[c].pc.Building?
    ensures var g := run[n];
      && (forall h :: 0 <= h < |g.reg.heap| && g.reg.heap[h].running ==> g.reg.heap[h].slot != g.calls[c].slot)
      && (forall d :: 0 <= d < |g.calls| && d != c && g.calls[d].slot == g.calls[c].slot ==> !InSection(g.calls[d].pc))
  {
    Reachable(run, acts, n);
    hide IsRun, IdsInv, SlotsInv, CountsInv, ExecsInv;
    var g := run[n];
    assert CallInv(g.calls[c], c, g.locks, g.reg.slots);
    forall h | 0 <= h < |g.reg.heap| && g.reg.heap[h].running
      ensures g.reg.heap[h].slot != g.calls[c].slot
    {
      assert Holds(g.reg, h);
    }
    forall d | 0 <= d < |g.calls| && d != c && g.calls[d].slot == g.calls[c].slot
      ensures !InSection(g.calls[d].pc)
    {
      assert CallInv(g.calls[d], d, g.locks, g.reg.slots);
    }
  }

  /**
   What can still go wrong between preparation and registration: a drain, or the same id accepted
   through another slot. The slot itself is never lost.
   */
  lemma LateRefusals(run: seq<Guest>, acts: seq<Act>, n: nat, c: nat)
    requires IsRun(run, acts) && n < |run| && c < |run[n].calls| && Preparing(run[n].calls[c].pc)
    requires WellFormed(run[n].reg)
    ensures var (r, call) := (run[n].reg, run[n].calls[c]);
      Admission(r, call.id, call.slot) != Accepted <==> r.draining || call.id in r.byId
  {
    Reachable(run, acts, n);
    hide IsRun, RegInv, ExecsInv;
    assert CallInv(run[n].calls[c], c, run[n].locks, run[n].reg.slots);
  }
}
