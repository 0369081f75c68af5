/**
 The guest registry as a value, and the effect of each section it runs under its locks.
 `heap` lists every execution object ever created; an index into it stands for the pointer.
 */
module RegistrySections {
  import opened Wrappers
  import opened EventLog

  datatype JobMeta = JobMeta(repo: string, jobID: int, runID: int, runnerName: string)

  datatype Exec = Exec(
    id: string, slot: nat, meta: JobMeta, pid: int, phase: string,
    running: bool, reaped: bool, cancelled: bool, exitReported: bool, exitCode: int, exitMsg: string,
    history: seq<Payload>)

  datatype Reg = Reg(
    heap: seq<Exec>, byId: map<string, nat>, slots: map<nat, string>,
    draining: bool, activeCount: int, drainedClosed: bool, closes: nat)

  datatype Outcome = Accepted | AlreadyRunning | AlreadyCompleted | Conflict | ErrDraining

  datatype ExitReport = ExitReport(exitCode: int, message: string)

  /** Indices stored under an id are allocated. */
  predicate WellFormed(r: Reg) {
    forall id :: id in r.byId ==> r.byId[id] < |r.heap|
  }

  function SetExec(r: Reg, h: nat, e: Exec): Reg
    requires h < |r.heap|
  {
    r.(heap := r.heap[h := e])
  }

  function Append(e: Exec, p: Payload): Exec {
    e.(history := e.history + [p])
  }

  function Admission(r: Reg, id: string, slot: nat): Outcome
    requires WellFormed(r)
  {
    if r.draining then ErrDraining
    else if id in r.byId then
      var existing := r.heap[r.byId[id]];
      if existing.slot != slot then Conflict
      else if existing.running then AlreadyRunning
      else AlreadyCompleted
    else if slot in r.slots then Conflict
    else Accepted
  }

  function NewExec(id: string, slot: nat, meta: JobMeta, pid: int): Exec {
    Exec(id, slot, meta, pid, "running", true, false, false, false, 0, "", [PhaseChange("running")])
  }

  function Register(r: Reg, id: string, slot: nat, meta: JobMeta, pid: int): Reg
    requires WellFormed(r)
  {
    if Admission(r, id, slot) != Accepted then r
    else
      r.(heap := r.heap + [NewExec(id, slot, meta, pid)],
         byId := r.byId[id := |r.heap|],
         slots := r.slots[slot := id],
         activeCount := r.activeCount + 1)
  }

  function CloseDrained(r: Reg): Reg {
    if r.drainedClosed then r else r.(drainedClosed := true, closes := r.closes + 1)
  }

  function Drain(r: Reg): Reg {
    var q := r.(draining := true);
    if q.activeCount == 0 then CloseDrained(q) else q
  }

  function Reap(e: Exec, report: ExitReport): Exec {
    e.(reaped := true, exitReported := true, exitCode := report.exitCode, exitMsg := report.message)
  }

  function CompleteExec(e: Exec): Exec {
    var message := if e.cancelled then "execution cancelled" else e.exitMsg;
    Append(Append(e.(phase := "completed", running := false), PhaseChange("completed")),
           TerminalResult(ClampExitCode(e.exitCode), message))
  }

  function Complete(r: Reg, h: nat): Reg
    requires h < |r.heap|
  {
    var q := SetExec(r, h, CompleteExec(r.heap[h]))
      .(slots := r.slots - {r.heap[h].slot}, activeCount := r.activeCount - 1);
    if q.draining && q.activeCount == 0 then CloseDrained(q) else q
  }

  function Expire(r: Reg, h: nat): Reg
    requires h < |r.heap|
  {
    var id := r.heap[h].id;
    if id in r.byId && r.byId[id] == h then r.(byId := r.byId - {id}) else r
  }

  /** A cancel that has nothing to do, or whose kill failed, changes nothing. */
  function Cancel(e: Exec, killed: bool): Exec {
    if !e.running || e.reaped || e.cancelled || !killed then e else e.(cancelled := true)
  }

  function HeartbeatOn(e: Exec, nanos: int): Exec {
    if e.running then Append(e, Heartbeat(nanos)) else e
  }

  datatype ListEntry = ListEntry(
    id: string, slot: nat, meta: JobMeta, phase: string, running: bool, lastSequence: nat)

  function EntryId(entry: ListEntry): string {
    entry.id
  }

  /** The state List reads from one execution under that execution's lock. */
  function Entry(r: Reg, h: nat): ListEntry
    requires h < |r.heap|
  {
    var e := r.heap[h];
    ListEntry(e.id, e.slot, e.meta, e.phase, e.running, |e.history|)
  }
}
