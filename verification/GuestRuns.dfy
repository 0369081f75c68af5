/**
 The running guest: per execution two pipe readers, heartbeats, exit reports, the supervisor and
 the retention timer; per slot the RunJob calls that admit, prepare and start; and drain. Every
 section under a lock is one act, and acts come in any order.
 */
module GuestRuns {
  import opened Wrappers
  import opened EventLog
  import opened RegistrySections

  datatype ReaderEnd = Eof | Deadline | Broken

  datatype ReaderPc =
    | Reading
    | Holding(data: seq<byte>)       // read from the pipe, not yet appended
    | Failing(message: seq<byte>)    // the read failed, its message is not yet appended
    | Done(how: ReaderEnd)

  /** got is everything the pipe has delivered so far. */
  datatype Reader = Reader(pc: ReaderPc, got: seq<byte>)

  datatype SupPc = Waiting | Joining | Armed | Settled

  /** The goroutines of one execution; injected counts failure-message bytes put on stderr. */
  datatype Task = Task(
    stdout: Reader, stderr: Reader, reportUsed: bool, report: Option<ExitReport>, sup: SupPc, injected: nat)

  datatype CallPc =
    | Entering
    | Locked
    | Building                       // inside the slot's destructive preparation
    | Built
    | Launching                      // admitted again by Start, forking
    | Launched
    | Answered(outcome: Option<Outcome>)

  datatype Call = Call(id: string, slot: nat, meta: JobMeta, pc: CallPc)

  datatype Guest = Guest(reg: Reg, tasks: seq<Task>, calls: seq<Call>, locks: map<nat, nat>)

  datatype ReaderAct =
    | Read(data: seq<byte>) | AppendRead | ReadFails(message: seq<byte>) | AppendFailure | ReadEnds(how: ReaderEnd)

  datatype CallAct =
    | Lock | Peek | FinishBuild(ok: bool) | Recheck | FinishLaunch(ok: bool) | Record(pid: int)

  datatype Act =
    | ReaderStep(h: nat, stream: Stream, read: ReaderAct)
    | Beat(h: nat, nanos: int)
    | Deliver(h: nat, exit: ExitReport)
    | StartReap(h: nat)
    | FinishReap(h: nat)
    | RetentionEnds(h: nat)
    | CancelExecution(h: nat, killed: bool)
    | StartDrain
    | NewCall(id: string, slot: nat, meta: JobMeta)
    | CallStep(c: nat, call: CallAct)

  const OUTPUT_READ_BUFFER_SIZE := 32 * 1024

  function ReaderOf(t: Task, stream: Stream): Reader {
    if stream == Stdout then t.stdout else t.stderr
  }

  function WithReader(t: Task, stream: Stream, r: Reader): Task {
    if stream == Stdout then t.(stdout := r) else t.(stderr := r)
  }

  predicate ReaderEnabled(r: Reader, a: ReaderAct) {
    match a
    case Read(data) => r.pc.Reading? && 0 < |data| <= OUTPUT_READ_BUFFER_SIZE
    case AppendRead => r.pc.Holding?
    case ReadFails(message) => r.pc.Reading? && message != []
    case AppendFailure => r.pc.Failing?
    case ReadEnds(how) => r.pc.Reading? && how != Broken
  }

  /** The log event an act of the goroutine reading `stream` appends. */
  function ReaderPayload(r: Reader, stream: Stream, a: ReaderAct): (p: Option<Payload>)
    requires ReaderEnabled(r, a)
    ensures p.Some? ==> p.value.LogChunk?
  {
    match a
    case AppendRead => Some(LogChunk(stream, r.pc.data))
    case AppendFailure => Some(LogChunk(Stderr, r.pc.message))  // a failed read of either pipe goes to stderr
    case _ => None
  }

  function ReaderExec(e: Exec, r: Reader, stream: Stream, a: ReaderAct): Exec
    requires ReaderEnabled(r, a)
  {
    var p := ReaderPayload(r, stream, a);
    if p.Some? then Append(e, p.value) else e
  }

  function ReaderTask(t: Task, stream: Stream, a: ReaderAct): Task
    requires ReaderEnabled(ReaderOf(t, stream), a)
  {
    var r := ReaderOf(t, stream);
    match a
    case Read(data) => WithReader(t, stream, Reader(Holding(data), r.got + data))
    case AppendRead => WithReader(t, stream, r.(pc := Reading))
    case ReadFails(message) => WithReader(t, stream, r.(pc := Failing(message)))
    case AppendFailure =>
      WithReader(t, stream, r.(pc := Done(Broken))).(injected := t.injected + |r.pc.message|)
    case ReadEnds(how) => WithReader(t, stream, r.(pc := Done(how)))
  }

  function NewTask(): Task {
    Task(Reader(Reading, []), Reader(Reading, []), false, None, Waiting, 0)
  }

  predicate CallEnabled(g: Guest, c: nat, a: CallAct) {
    && c < |g.calls|
    && var call := g.calls[c];
       match a
       case Lock => call.pc.Entering? && call.slot !in g.locks
       case Peek => call.pc.Locked?
       case FinishBuild(_) => call.pc.Building?
       case Recheck => call.pc.Built?
       case FinishLaunch(_) => call.pc.Launching?
       case Record(_) => call.pc.Launched?
  }

  function Goto(g: Guest, c: nat, pc: CallPc): Guest
    requires c < |g.calls|
  {
    g.(calls := g.calls[c := g.calls[c].(pc := pc)])
  }

  /** The call returns and gives its slot lock back. */
  function Answer(g: Guest, c: nat, outcome: Option<Outcome>): Guest
    requires c < |g.calls|
  {
    Goto(g, c, Answered(outcome)).(locks := g.locks - {g.calls[c].slot})
  }

  function CallApply(g: Guest, c: nat, a: CallAct): Guest
    requires CallEnabled(g, c, a) && WellFormed(g.reg)
  {
    var call := g.calls[c];
    match a
    case Lock => Goto(g, c, Locked).(locks := g.locks[call.slot := c])
    case Peek =>
      if call.id == "" then Answer(g, c, None)
      else if Admission(g.reg, call.id, call.slot) == Accepted then Goto(g, c, Building)
      else Answer(g, c, Some(Admission(g.reg, call.id, call.slot)))
    case FinishBuild(ok) => if ok then Goto(g, c, Built) else Answer(g, c, None)
    case Recheck =>
      if Admission(g.reg, call.id, call.slot) == Accepted then Goto(g, c, Launching)
      else Answer(g, c, Some(Admission(g.reg, call.id, call.slot)))
    case FinishLaunch(ok) => if ok then Goto(g, c, Launched) else Answer(g, c, None)
    case Record(pid) =>
      var answered := Answer(g, c, Some(Admission(g.reg, call.id, call.slot)));
      if Admission(g.reg, call.id, call.slot) == Accepted
      then answered.(reg := Register(g.reg, call.id, call.slot, call.meta, pid), tasks := g.tasks + [NewTask()])
      else answered
  }

  predicate Has(g: Guest, h: nat) {
    h < |g.reg.heap| && h < |g.tasks|
  }

  predicate Enabled(g: Guest, a: Act) {
    && WellFormed(g.reg)
    && match a
       case ReaderStep(h, stream, r) => Has(g, h) && ReaderEnabled(ReaderOf(g.tasks[h], stream), r)
       case Beat(h, _) => Has(g, h)
       case Deliver(h, _) => Has(g, h)
       case StartReap(h) => Has(g, h) && g.tasks[h].sup.Waiting? && g.tasks[h].report.Some?
       case FinishReap(h) =>
         Has(g, h) && g.tasks[h].sup.Joining? && g.tasks[h].stdout.pc.Done? && g.tasks[h].stderr.pc.Done?
       case RetentionEnds(h) => Has(g, h) && g.tasks[h].sup.Armed?
       case CancelExecution(h, _) => Has(g, h)
       case StartDrain => true
       case NewCall(_, _, _) => true
       case CallStep(c, x) => CallEnabled(g, c, x)
  }

  function Apply(g: Guest, a: Act): Guest
    requires Enabled(g, a)
  {
    match a
    case ReaderStep(h, stream, r) =>
      var e := ReaderExec(g.reg.heap[h], ReaderOf(g.tasks[h], stream), stream, r);
      g.(reg := SetExec(g.reg, h, e), tasks := g.tasks[h := ReaderTask(g.tasks[h], stream, r)])
    case Beat(h, nanos) => g.(reg := SetExec(g.reg, h, HeartbeatOn(g.reg.heap[h], nanos)))
    case Deliver(h, report) =>
      if g.reg.heap[h].exitReported || !g.reg.heap[h].running || g.tasks[h].reportUsed then g
      else g.(tasks := g.tasks[h := g.tasks[h].(reportUsed := true, report := Some(report))])
    case StartReap(h) =>
      g.(reg := SetExec(g.reg, h, Reap(g.reg.heap[h], g.tasks[h].report.value)),
         tasks := g.tasks[h := g.tasks[h].(sup := Joining, report := None)])
    case FinishReap(h) => g.(reg := Complete(g.reg, h), tasks := g.tasks[h := g.tasks[h].(sup := Armed)])
    case RetentionEnds(h) => g.(reg := Expire(g.reg, h), tasks := g.tasks[h := g.tasks[h].(sup := Settled)])
    case CancelExecution(h, killed) => g.(reg := SetExec(g.reg, h, Cancel(g.reg.heap[h], killed)))
    case StartDrain => g.(reg := Drain(g.reg))
    case NewCall(id, slot, meta) => g.(calls := g.calls + [Call(id, slot, meta, Entering)])
    case CallStep(c, x) => CallApply(g, c, x)
  }

  predicate Init(g: Guest) {
    g == Guest(Reg([], map[], map[], false, 0, false, 0), [], [], map[])
  }

  ghost predicate IsRun(run: seq<Guest>, acts: seq<Act>) {
    && |run| == |acts| + 1
    && Init(run[0])
    && forall n :: 0 <= n < |acts| ==> Enabled(run[n], acts[n]) && run[n + 1] == Apply(run[n], acts[n])
  }
}
