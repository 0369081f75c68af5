/**
 The guest together with the hosts that follow it: status streams, the drains that reconnect from
 a cursor, and the listings a restarted host adopts from. Streams, connections and contexts may
 fail at any point.
 */
module Delivery {
  import opened Wrappers
  import opened EventLog
  import opened RegistrySections
  import opened GuestRuns
  import H = HostDrain

  // ----- one status stream ------------------------------------------------------------------

  /**
   A subscription to execution h. `wire` is what the guest sent and the host has not received;
   a subscriber asleep on the log's notify channel remembers how long the log was. `openedAt` and `mark`
   are histories: the cursor it was opened at and how much the drain had received by then.
   */
  datatype Session = Session(
    h: nat, next: nat, wire: seq<Event>, slept: Option<nat>, ended: bool, openedAt: nat, mark: nat)

  datatype StreamAct = StreamRead | StreamSleep | StreamEnd

  predicate StreamAwake(s: Session, e: Exec) {
    s.slept.None? || s.slept.value < |e.history|
  }

  predicate StreamEnabled(s: Session, e: Exec, a: StreamAct) {
    && !s.ended && StreamAwake(s, e)
    && match a
       case StreamRead => 0 < s.next <= |e.history|
       case StreamSleep => s.next > |e.history| && e.running
       case StreamEnd => s.next > |e.history| && !e.running
  }

  /** The status stream stops after it sent a terminal. */
  function StreamApply(s: Session, e: Exec, a: StreamAct): Session
    requires StreamEnabled(s, e, a)
  {
    match a
    case StreamRead =>
      var event := Event(s.next, Shown(e.history, s.next - 1));
      s.(next := s.next + 1, wire := s.wire + [event], slept := None, ended := event.payload.TerminalResult?)
    case StreamSleep => s.(slept := Some(|e.history|))
    case StreamEnd => s.(ended := true, slept := None)
  }

  // ----- one drain --------------------------------------------------------------------------

  /** Why a drain's context ended: a worker shutdown, or a custom cause. */
  datatype Stop = PlainStop | CustomStop

  datatype Phase = Following | TearingDown

  datatype DrainEnd =
    | Terminal(exitCode: int, message: string)
    | Expired          // the guest does not know the execution
    | DrainStalled
    | Detached
    | TimedOut         // the teardown drain ran out of time

  datatype DrainPc =
    | Top
    | Opening
    | Attached(session: Session)
    | Returned(how: DrainEnd)

  /** One event as the host received it, and the execution it came from. */
  datatype Got = Got(h: nat, event: Event)

  /** What one round of the reconnect loop met, opened at `cursor`. */
  datatype Round = Round(cursor: nat, doneBefore: bool, attempt: H.Attempt, doneAfter: bool)

  /**
   `stop` is the context's end, `late` the teardown deadline. What follows is history: the events received
   and the execution the last came from, the rounds of this phase and of the one before, and how much had
   been received when this phase began.
   */
  datatype Drain = Drain(
    id: string, from: nat, cursor: nat, phase: Phase, pc: DrainPc, stop: Option<Stop>, late: bool,
    got: seq<Got>, anchor: Option<nat>, rounds: seq<Round>, before: seq<Round>, split: nat)

  datatype DrainAct =
    | StopContext(why: Stop)
    | Deadline
    | CheckContext
    | OpenSucceeds
    | OpenFindsNothing   // at the open or as the stream's first answer
    | OpenFails
    | StreamStep(stream: StreamAct)
    | Receive
    | StreamBreaks      // a dropped connection, or a stream the guest ended without a terminal
    | IdleFires

  predicate ContextDone(d: Drain) {
    if d.phase == Following then d.stop.Some? else d.late
  }

  predicate DrainEnabled(r: Reg, d: Drain, a: DrainAct) {
    match a
    case StopContext(_) => d.stop.None?
    case Deadline => d.phase == TearingDown
    case CheckContext => d.pc.Top?
    case OpenSucceeds => d.pc.Opening? && d.id in r.byId && r.byId[d.id] < |r.heap|
    case OpenFindsNothing => d.pc.Opening? && d.id !in r.byId
    case OpenFails => d.pc.Opening?
    case StreamStep(x) =>
      d.pc.Attached? && d.pc.session.h < |r.heap| && StreamEnabled(d.pc.session, r.heap[d.pc.session.h], x)
    case Receive => d.pc.Attached? && d.pc.session.wire != []
    case StreamBreaks => d.pc.Attached?
    case IdleFires => d.pc.Attached?
  }

  /** The drain's context is done: detach, start the teardown drain, or give that one up. */
  function Stopped(d: Drain): Drain {
    if d.phase == TearingDown then d.(pc := Returned(TimedOut))
    else if d.stop == Some(CustomStop)
    then d.(phase := TearingDown, pc := Top, before := d.rounds, rounds := [], split := |d.got|)
    else d.(pc := Returned(Detached))
  }

  /** The round that ends here goes on record. */
  function Recorded(d: Drain, cursor: nat, doneBefore: bool, attempt: H.Attempt, doneAfter: bool): Drain {
    d.(rounds := d.rounds + [Round(cursor, doneBefore, attempt, doneAfter)])
  }

  function EventsOf(got: seq<Got>): seq<Event> {
    seq(|got|, i requires 0 <= i < |got| => got[i].event)
  }

  /** The round of an attached stream, as far as it got. */
  function StreamRecorded(d: Drain, idleFired: bool, doneAfter: bool): Drain
    requires d.pc.Attached?
  {
    var s := d.pc.session;
    var events := if s.mark <= |d.got| then EventsOf(d.got[s.mark..]) else [];
    Recorded(d, s.openedAt, false, H.Stream(events, H.Broken, idleFired), doneAfter)
  }

  function Received(d: Drain): Drain
    requires d.pc.Attached? && d.pc.session.wire != []
  {
    var s := d.pc.session;
    var e := s.wire[0];
    var d' := d.(cursor := e.sequence, got := d.got + [Got(s.h, e)], anchor := Some(s.h),
                 pc := Attached(s.(wire := s.wire[1..])));
    if e.payload.TerminalResult?
    then StreamRecorded(d', false, false).(pc := Returned(Terminal(e.payload.exitCode, e.payload.message)))
    else d'
  }

  function DrainApply(r: Reg, d: Drain, a: DrainAct): Drain
    requires DrainEnabled(r, d, a)
  {
    match a
    case StopContext(why) => d.(stop := Some(why))
    case Deadline => d.(late := true)
    case CheckContext =>
      if ContextDone(d) then Stopped(Recorded(d, d.cursor, true, H.CannotOpen, false)) else d.(pc := Opening)
    case OpenSucceeds =>
      d.(pc := Attached(Session(r.byId[d.id], d.cursor + 1, [], None, false, d.cursor, |d.got|)))
    case OpenFindsNothing => Recorded(d, d.cursor, false, H.UnknownExecution, false).(pc := Returned(Expired))
    case OpenFails => Recorded(d, d.cursor, false, H.CannotOpen, false).(pc := Top)
    case StreamStep(x) => d.(pc := Attached(StreamApply(d.pc.session, r.heap[d.pc.session.h], x)))
    case Receive => Received(d)
    case StreamBreaks =>
      if ContextDone(d) then Stopped(StreamRecorded(d, false, true))
      else StreamRecorded(d, false, false).(pc := Top)
    case IdleFires => StreamRecorded(d, true, false).(pc := Returned(DrainStalled))
  }

  // ----- listings ---------------------------------------------------------------------------

  /** A List call: the executions it collected under the registry lock, and the entries read since. */
  datatype Listing = Listing(handles: seq<nat>, entries: seq<ListEntry>)

  predicate Collects(r: Reg, handles: seq<nat>) {
    && (forall i, j :: 0 <= i < j < |handles| ==> handles[i] != handles[j])
    && (set h | h in handles) == r.byId.Values
  }

  // ----- all together -----------------------------------------------------------------------

  datatype Sys = Sys(guest: Guest, drains: seq<Drain>, listings: seq<Listing>)

  datatype Act =
    | GuestAct(guest: GuestRuns.Act)
    | ListBegin(handles: seq<nat>)
    | ListRead(j: nat)
    | Dispatch(id: string)                 // RunJob drains from the start
    | Adopt(j: nat, i: nat)                // ResumeJob drains from a listed cursor
    | DrainStep(n: nat, drain: DrainAct)

  function NewDrain(id: string, from: nat, anchor: Option<nat>): Drain {
    Drain(id, from, from, Following, Top, None, false, [], anchor, [], [], 0)
  }

  predicate Enabled(s: Sys, a: Act) {
    match a
    case GuestAct(x) => GuestRuns.Enabled(s.guest, x)
    case ListBegin(handles) => Collects(s.guest.reg, handles)
    case ListRead(j) =>
      && j < |s.listings| && |s.listings[j].entries| < |s.listings[j].handles|
      && s.listings[j].handles[|s.listings[j].entries|] < |s.guest.reg.heap|
    case Dispatch(_) => true
    case Adopt(j, i) =>
      && j < |s.listings| && i < |s.listings[j].entries| && i < |s.listings[j].handles|
      && s.listings[j].entries[i].running
    case DrainStep(n, x) => n < |s.drains| && DrainEnabled(s.guest.reg, s.drains[n], x)
  }

  function ReadNext(r: Reg, l: Listing): Listing
    requires |l.entries| < |l.handles| && l.handles[|l.entries|] < |r.heap|
  {
    l.(entries := l.entries + [Entry(r, l.handles[|l.entries|])])
  }

  function Apply(s: Sys, a: Act): Sys
    requires Enabled(s, a)
  {
    match a
    case GuestAct(x) => s.(guest := GuestRuns.Apply(s.guest, x))
    case ListBegin(handles) => s.(listings := s.listings + [Listing(handles, [])])
    case ListRead(j) => s.(listings := s.listings[j := ReadNext(s.guest.reg, s.listings[j])])
    case Dispatch(id) => s.(drains := s.drains + [NewDrain(id, 0, None)])
    case Adopt(j, i) =>
      var entry := s.listings[j].entries[i];
      s.(drains := s.drains + [NewDrain(entry.id, entry.lastSequence, Some(s.listings[j].handles[i]))])
    case DrainStep(n, x) => s.(drains := s.drains[n := DrainApply(s.guest.reg, s.drains[n], x)])
  }

  predicate Init(s: Sys) {
    GuestRuns.Init(s.guest) && s.drains == [] && s.listings == []
  }

  ghost predicate IsRun(run: seq<Sys>, acts: seq<Act>) {
    && |run| == |acts| + 1
    && Init(run[0])
    && forall n :: 0 <= n < |acts| ==> Enabled(run[n], acts[n]) && run[n + 1] == Apply(run[n], acts[n])
  }
}
