/** The guest's execution objects and the registry that owns them. */
module GuestRegistry {
  import opened Wrappers
  import opened EventLog
  import opened RegistrySections
  import opened Sorting

  /** The cursor passed only events without data and chunks it evicted; the rest are untouched. */
  ghost predicate LogScanned(events: seq<Event>, history: seq<Payload>, retained: int, cursor: nat) {
    && |events| == |history| && cursor <= |history|
    && retained == BytesFrom(history, cursor)
    && (forall i :: 0 <= i < cursor ==>
          && events[i] == Event(i + 1, Shown(history, i))
          && (ChunkBytes(history[i]) == 0 || BytesFrom(history, i) > MAX_RETAINED_LOG_BYTES))
    && (forall i :: cursor <= i < |history| ==> events[i] == Event(i + 1, history[i]))
  }

  class Execution {
    const id: string
    const slot: nat
    const meta: JobMeta
    const processID: int
    ghost const handle: nat
    var phase: string
    var running: bool
    var reaped: bool
    var cancelled: bool
    var events: seq<Event>
    var retainedLogBytes: int
    var logCapCursor: nat
    var exitReported: bool
    var exitCode: int
    var exitMsg: string
    /** Everything appended so far, before any eviction. */
    ghost var history: seq<Payload>
    /** How often the cap's loop body has run. */
    ghost var scans: nat

    ghost predicate ScannedTo(cursor: nat)
      reads this
    {
      LogScanned(events, history, retainedLogBytes, cursor)
    }

    ghost predicate Valid()
      reads this
    {
      && LogScanned(events, history, retainedLogBytes, logCapCursor)
      && retainedLogBytes <= MAX_RETAINED_LOG_BYTES && scans <= logCapCursor + |history|
    }

    ghost function View(): Exec
      reads this
    {
      Exec(id, slot, meta, processID, phase, running, reaped, cancelled, exitReported, exitCode, exitMsg, history)
    }

    constructor (id: string, slot: nat, meta: JobMeta, pid: int, ghost handle: nat)
      ensures Valid() && this.handle == handle
      ensures View() == NewExec(id, slot, meta, pid)
    {
      this.id, this.slot, this.meta, this.processID := id, slot, meta, pid;
      this.handle := handle;
      phase, running, reaped, cancelled := "running", true, false, false;
      events, retainedLogBytes, logCapCursor := [], 0, 0;
      exitReported, exitCode, exitMsg := false, 0, "";
      history, scans := [], 0;
      new;
      AppendEventLocked(PhaseChange("running"));
      assert history == [PhaseChange("running")];
    }

    /** A valid log shows exactly what rescanning the whole history against the cap would leave. */
    lemma ShowsRetained()
      requires Valid()
      ensures events == Retained(history)
      ensures LiveBytes(events) == retainedLogBytes
      ensures forall i :: 0 <= i < logCapCursor ==> ChunkBytes(events[i].payload) == 0
      ensures scans <= 2 * |history|
    {
      forall i | logCapCursor <= i < |history|
        ensures Shown(history, i) == history[i]
      {
        BytesFromMonotone(history, logCapCursor, i);
      }
      LiveBytesUpTo(history, logCapCursor, |history|);
      assert BytesFrom(history, |history|) == 0;
      assert Retained(history)[..|history|] == Retained(history) == events;
    }

    /** Append one event, then evict the oldest log data that no longer fits the cap. */
    method AppendEventLocked(payload: Payload)
      requires Valid()
      modifies this`events, this`retainedLogBytes, this`logCapCursor, this`history, this`scans
      ensures Valid() && history == old(history) + [payload]
    {
      var sequence := |events| + 1;
      ghost var before := history;
      events := events + [Event(sequence, payload)];
      history := history + [payload];
      forall i | 0 <= i <= |before|
        ensures BytesFrom(history, i) == BytesFrom(before, i) + ChunkBytes(payload)
      {
        BytesFromAppend(before, payload, i);
      }
      if payload.LogChunk? {
        retainedLogBytes := retainedLogBytes + |payload.data|;
        EnforceLogByteCapLocked();
      }
    }

    method EnforceLogByteCapLocked()
      requires ScannedTo(logCapCursor) && scans < logCapCursor + |history|
      modifies this`events, this`retainedLogBytes, this`logCapCursor, this`scans
      ensures Valid()
    {
      while logCapCursor < |events|
        invariant ScannedTo(logCapCursor) && history == old(history)
        invariant scans < logCapCursor + |history|
        decreases |events| - logCapCursor
      {
        scans := scans + 1;
        if retainedLogBytes <= MAX_RETAINED_LOG_BYTES { return; }
        var chunk := events[logCapCursor].payload;
        if chunk.LogChunk? && |chunk.data| > 0 {
          retainedLogBytes := retainedLogBytes - |chunk.data|;
          events := events[logCapCursor := Event(events[logCapCursor].sequence, LogChunk(chunk.stream, []))];
        }
        logCapCursor := logCapCursor + 1;
      }
    }

    method AppendHeartbeat(nanos: int)
      requires Valid()
      modifies this
      ensures Valid() && View() == HeartbeatOn(old(View()), nanos)
    {
      if !running { return; }
      AppendEventLocked(Heartbeat(nanos));
    }

    /** The first half of reapAndComplete. */
    method MarkReaped(report: ExitReport)
      requires Valid()
      modifies this`reaped, this`exitReported, this`exitCode, this`exitMsg
      ensures Valid() && View() == Reap(old(View()), report)
    {
      reaped := true;
      exitReported := true;
      exitCode := report.exitCode;
      exitMsg := report.message;
    }

    /** The part of completeExecution that concerns the execution itself. */
    method MarkCompleted()
      requires Valid()
      modifies this
      ensures Valid() && View() == CompleteExec(old(View()))
    {
      var message := exitMsg;
      if cancelled {
        message := "execution cancelled";
      }
      phase := "completed";
      running := false;
      AppendEventLocked(PhaseChange("completed"));
      AppendEventLocked(TerminalResult(ClampExitCode(exitCode), message));
    }

    /** killed is the outcome of signalling the process group. */
    method Cancel(killed: bool)
      requires Valid()
      modifies this`cancelled
      ensures Valid() && View() == RegistrySections.Cancel(old(View()), killed)
    {
      if !running || reaped || cancelled { return; }
      if killed { cancelled := true; }
    }

    /** The state List reads under the execution's lock. */
    function ReadEntry(): ListEntry
      reads this
    {
      ListEntry(id, slot, meta, phase, running, if |events| > 0 then events[|events| - 1].sequence else 0)
    }

    /** One turn of a subscriber's loop: the next event, the end of the stream, or a wait. */
    method ReadNext(nextSequence: nat) returns (event: Option<Event>, ended: bool)
      requires Valid()
      ensures event.Some? == (0 < nextSequence <= |history|)
      ensures event.Some? ==> event.value == Event(nextSequence, Shown(history, nextSequence - 1)) && !ended
      ensures event.None? ==> ended == !running
    {
      ShowsRetained();
      if nextSequence > 0 && nextSequence <= |events| {
        return Some(events[nextSequence - 1]), false;
      }
      return None, !running;
    }
  }

  class Registry {
    var executions: map<string, Execution>
    var slots: map<nat, string>
    var draining: bool
    var activeCount: int
    var drainedClosed: bool
    /** Every execution object ever created with its value, and how often the drained channel was closed. */
    ghost var objects: seq<Execution>
    ghost var heap: seq<Exec>
    ghost var byId: map<string, nat>
    ghost var closes: nat

    ghost predicate Valid()
      reads this, objects
    {
      && |heap| == |objects|
      && (forall h :: 0 <= h < |objects| ==>
            objects[h].Valid() && objects[h].handle == h && heap[h] == objects[h].View())
      && byId.Keys == executions.Keys
      && (forall id :: id in executions ==>
            Owns(executions[id]) && executions[id].id == id && byId[id] == executions[id].handle)
    }

    /** The execution object is one of the registry's, found at its own handle. */
    ghost predicate Owns(e: Execution)
      reads this
    {
      e.handle < |objects| && objects[e.handle] == e
    }

    ghost function View(): Reg
      reads this
    {
      Reg(heap, byId, slots, draining, activeCount, drainedClosed, closes)
    }

    constructor ()
      ensures Valid() && View() == Reg([], map[], map[], false, 0, false, 0)
    {
      executions, slots, draining, activeCount, drainedClosed := map[], map[], false, 0, false;
      objects, heap, byId, closes := [], [], map[], 0;
    }

    lemma ViewWellFormed()
      requires Valid()
      ensures WellFormed(View())
    {
    }

    method CheckAdmissionLocked(id: string, slot: nat) returns (outcome: Outcome)
      requires Valid()
      ensures WellFormed(View()) && outcome == Admission(View(), id, slot)
    {
      ViewWellFormed();
      if draining { return ErrDraining; }
      if id in executions {
        var existing := executions[id];
        assert View().heap[View().byId[id]] == existing.View();
        if existing.slot != slot { return Conflict; }
        if existing.running { return AlreadyRunning; }
        return AlreadyCompleted;
      }
      if slot in slots { return Conflict; }
      outcome := Accepted;
    }

    /** None stands for the error that an incomplete execution spec gets before admission is looked at. */
    method Register(id: string, slot: nat, meta: JobMeta, command: string, pid: int) returns (outcome: Option<Outcome>)
      requires Valid()
      modifies this
      ensures Valid() && WellFormed(old(View()))
      ensures id == "" || command == "" || command[0] != '/' ==> outcome == None && View() == old(View())
      ensures id != "" && command != "" && command[0] == '/' ==>
                && outcome == Some(Admission(old(View()), id, slot))
                && View() == RegistrySections.Register(old(View()), id, slot, meta, pid)
    {
      ViewWellFormed();
      if id == "" { return None; }
      if command == "" { return None; }
      if command[0] != '/' { return None; }
      var admission := CheckAdmissionLocked(id, slot);
      outcome := Some(admission);
      if admission != Accepted { return; }
      var execution := new Execution(id, slot, meta, pid, |objects|);
      Record(execution);
    }

    /** Publish a new execution under its id and its slot. */
    method Record(e: Execution)
      requires Valid() && e.Valid() && e.handle == |objects| && e !in objects
      modifies this`objects, this`heap, this`byId, this`executions, this`slots, this`activeCount
      ensures Valid()
      ensures View() == old(View()).(heap := old(View()).heap + [e.View()],
                                     byId := old(View()).byId[e.id := e.handle],
                                     slots := old(slots)[e.slot := e.id],
                                     activeCount := old(activeCount) + 1)
    {
      objects, heap := objects + [e], heap + [e.View()];
      executions, byId := executions[e.id := e], byId[e.id := e.handle];
      slots := slots[e.slot := e.id];
      activeCount := activeCount + 1;
    }

    method CloseDrainedLocked()
      modifies this`drainedClosed, this`closes
      ensures drainedClosed
      ensures closes == old(closes) + if old(drainedClosed) then 0 else 1
    {
      if drainedClosed { return; }
      closes := closes + 1;
      drainedClosed := true;
    }

    method Drain() returns (idle: bool, active: int)
      requires Valid()
      modifies this`draining, this`drainedClosed, this`closes
      ensures Valid() && View() == RegistrySections.Drain(old(View()))
      ensures idle == (activeCount == 0) && active == activeCount
    {
      draining := true;
      if activeCount == 0 {
        CloseDrainedLocked();
      }
      idle, active := activeCount == 0, activeCount;
    }

    method CompleteExecution(e: Execution)
      requires Valid() && Owns(e)
      modifies this, e
      ensures Valid() && View() == Complete(old(View()), e.handle)
    {
      assert heap[e.handle] == e.View();
      e.MarkCompleted();
      heap := heap[e.handle := e.View()];
      slots := slots - {e.slot};
      activeCount := activeCount - 1;
      if draining && activeCount == 0 {
        CloseDrainedLocked();
      }
    }

    method Expire(e: Execution)
      requires Valid() && Owns(e)
      modifies this`executions, this`byId
      ensures Valid() && View() == RegistrySections.Expire(old(View()), e.handle)
    {
      assert heap[e.handle].id == e.id;
      assert e.id in executions ==> (executions[e.id] == e <==> byId[e.id] == e.handle);
      if e.id in executions && executions[e.id] == e {
        executions, byId := executions - {e.id}, byId - {e.id};
      }
    }

    /** The execution an exit report for pid goes to, looked up in whatever order the map yields. */
    method ExecutionByPIDLocked(pid: int) returns (found: Option<Execution>)
      requires Valid()
      ensures found.Some? ==>
                && (exists id :: id in executions && executions[id] == found.value)
                && found.value.processID == pid
                && ((found.value.running && !found.value.reaped) || NoLiveOwner(pid, executions.Keys))
      ensures found.None? ==> forall id :: id in executions ==> executions[id].processID != pid
    {
      found := None;
      var left := executions.Keys;
      while left != {}
        invariant left <= executions.Keys
        invariant found.Some? ==>
                    found.value.processID == pid && exists id :: id in executions && executions[id] == found.value
        invariant found.None? ==> forall id :: id in executions && id !in left ==> executions[id].processID != pid
        invariant NoLiveOwner(pid, executions.Keys - left)
        decreases |left|
      {
        var id :| id in left;
        left := left - {id};
        if executions[id].processID != pid { continue; }
        if executions[id].running && !executions[id].reaped {
          return Some(executions[id]);
        }
        if found.None? { found := Some(executions[id]); }
      }
    }

    ghost predicate NoLiveOwner(pid: int, ids: set<string>)
      requires Valid()
      reads this, objects
    {
      forall id :: id in ids && id in executions ==>
        !(executions[id].processID == pid && executions[id].running && !executions[id].reaped)
    }

    /** What Cancel does under the lock of the execution it found. */
    method CancelFound(e: Execution, killed: bool)
      requires Valid() && Owns(e) && e.handle < |heap|
      modifies this`heap, e`cancelled
      ensures Valid()
      ensures View() == SetExec(old(View()), e.handle, RegistrySections.Cancel(old(heap)[e.handle], killed))
    {
      assert heap[e.handle] == e.View();
      e.Cancel(killed);
      heap := heap[e.handle := e.View()];
    }

    /** Kills the process group of a live execution; an unknown id is the not-found error. */
    method Cancel(id: string, killed: bool) returns (found: bool)
      requires Valid()
      modifies this`heap, objects
      ensures Valid() && found == (id in old(byId))
      ensures View() == if id in old(byId)
                        then SetExec(old(View()), old(byId)[id],
                                     RegistrySections.Cancel(old(heap)[old(byId)[id]], killed))
                        else old(View())
    {
      found := id in executions;
      if !found { return; }
      hide Valid, RegistrySections.Cancel;
      Registered(id);
      CancelFound(executions[id], killed);
    }

    lemma Registered(id: string)
      requires Valid() && id in executions
      ensures Owns(executions[id]) && byId[id] == executions[id].handle && byId[id] < |heap| && executions[id] in objects
    {
    }

    /** The entries are those of the executions with these ids. */
    ghost predicate Lists(entries: seq<ListEntry>, ids: set<string>)
      reads this
    {
      && ids <= byId.Keys && |entries| == |ids|
      && (forall entry :: entry in entries ==>
            && entry.id in ids && byId[entry.id] < |heap| && entry == Entry(View(), byId[entry.id]))
      && (forall id :: id in ids ==> exists entry :: entry in entries && entry.id == id)
    }

    lemma ListsSorted(entries: seq<ListEntry>, ids: set<string>)
      requires Lists(entries, ids)
      ensures Lists(SortBy(entries, EntryId), ids)
      ensures Sorted(SortBy(entries, EntryId), EntryId)
    {
      var sorted := SortBy(entries, EntryId);
      SortBySorts(entries, EntryId);
      assert |multiset(sorted)| == |sorted| && |multiset(entries)| == |entries|;
      assert forall entry :: entry in sorted <==> entry in multiset(sorted);
      assert forall entry :: entry in entries <==> entry in multiset(entries);
      forall id | id in ids
        ensures exists entry :: entry in sorted && entry.id == id
      {
        var entry :| entry in entries && entry.id == id;
        assert entry in sorted;
      }
    }

    /** The registry's executions in whatever order the map yields them. */
    method SnapshotIds() returns (ids: seq<string>)
      ensures forall id :: id in ids <==> id in executions
      ensures |ids| == |executions.Keys|
    {
      ids := [];
      var left := executions.Keys;
      while left != {}
        invariant left <= executions.Keys && |ids| + |left| == |executions.Keys|
        invariant forall id :: id in ids <==> id in executions && id !in left
      {
        var id :| id in left;
        left := left - {id};
        ids := ids + [id];
      }
    }

    /** Read one execution after the other. */
    method CollectEntries(ids: seq<string>) returns (states: seq<ListEntry>)
      requires Valid() && forall id :: id in ids ==> id in executions
      ensures |states| == |ids|
      ensures forall n :: 0 <= n < |ids| ==>
                byId[ids[n]] < |heap| && states[n] == Entry(View(), byId[ids[n]]) && states[n].id == ids[n]
    {
      assert executions.Keys == byId.Keys;
      hide Valid, Entry, Execution.ReadEntry;
      states := [];
      for n := 0 to |ids|
        invariant |states| == n
        invariant forall m :: 0 <= m < n ==>
                    byId[ids[m]] < |heap| && states[m] == Entry(View(), byId[ids[m]]) && states[m].id == ids[m]
      {
        EntryIsRead(ids[n]);
        var entry := executions[ids[n]].ReadEntry();
        assert entry == Entry(View(), byId[ids[n]]) && entry.id == ids[n];
        states := states + [entry];
      }
    }

    lemma ListsCollected(ids: seq<string>, states: seq<ListEntry>)
      requires byId.Keys == executions.Keys
      requires (forall id :: id in ids <==> id in executions) && |ids| == |executions.Keys| && |states| == |ids|
      requires forall n :: 0 <= n < |ids| ==>
                 byId[ids[n]] < |heap| && states[n] == Entry(View(), byId[ids[n]]) && states[n].id == ids[n]
      ensures Lists(states, byId.Keys)
    {
      forall id | id in byId
        ensures exists entry :: entry in states && entry.id == id
      {
        var n :| 0 <= n < |ids| && ids[n] == id;
        assert states[n] in states;
      }
    }

    /** Every execution in the registry once, sorted by id. */
    method List() returns (states: seq<ListEntry>)
      requires Valid()
      ensures Sorted(states, EntryId) && Lists(states, byId.Keys) && |states| == |byId.Keys|
    {
      assert byId.Keys == executions.Keys;
      var ids := SnapshotIds();
      states := CollectEntries(ids);
      hide Valid, Entry;
      ListsCollected(ids, states);
      ListsSorted(states, byId.Keys);
      states := SortBy(states, EntryId);
    }

    lemma EntryIsRead(id: string)
      requires Valid() && id in executions
      ensures byId[id] < |heap| && executions[id].ReadEntry() == Entry(View(), byId[id])
      ensures executions[id].ReadEntry().id == id
    {
      executions[id].ShowsRetained();
      assert heap[executions[id].handle] == executions[id].View();
    }
  }
}
