/**
 The host's drain loops. The guest and the connection enter as a script: what the open of each
 attempt finds at the cursor it is given, and when the contexts are done.
 */
module HostDrain {
  import opened Wrappers
  import opened EventLog
  import P = PoolSections
  import R = RegistrySections

  // ----- the environment --------------------------------------------------------------------

  /** How a stream's Receive stops delivering. */
  datatype Ending = Eof | Broken | ExecutionGone

  datatype Attempt =
    | CannotOpen
    | UnknownExecution
    | Stream(events: seq<Event>, ending: Ending, idleFired: bool)

  /** The cause a context was cancelled with, as far as errors.Is tells causes apart. */
  datatype Cause = Canceled | DeadlineExceeded | Custom

  /**
   What one drain meets: its attempts by turn and cursor, and whether its context is done at the top
   of a turn and after that turn's stream. From turn `turns` on the context is done.
   */
  datatype Script = Script(
    turns: nat, attempt: (nat, nat) -> Attempt, doneBefore: nat -> bool, doneAfter: nat -> bool)

  datatype End = Terminal(exitCode: int, message: string) | Unknown | Stalled

  /** A drain's return: cancelled, or an end; the cursor it left behind and the events it processed. */
  datatype Followed = Followed(end: Option<End>, cursor: nat, got: seq<Event>)

  datatype CancelAction = CancelNone | CancelDetach | CancelTeardown

  function ClassifyCancel(cause: Option<Cause>): CancelAction {
    match cause
    case None => CancelNone
    case Some(Custom) => CancelTeardown
    case Some(Canceled) => CancelDetach
    case Some(DeadlineExceeded) => CancelDetach
  }

  // ----- what the loops compute -------------------------------------------------------------

  /** The events up to and including the first terminal. */
  function Processed(events: seq<Event>): seq<Event> {
    if events == [] then []
    else if events[0].payload.TerminalResult? then [events[0]]
    else [events[0]] + Processed(events[1..])
  }

  predicate EndsInTerminal(events: seq<Event>) {
    events != [] && events[|events| - 1].payload.TerminalResult?
  }

  function CursorAfter(cursor: nat, got: seq<Event>): nat {
    if got == [] then cursor else got[|got| - 1].sequence
  }

  /** The bytes a run log receives: every chunk's data, evicted chunks contributing nothing. */
  function Mirrored(got: seq<Event>): seq<byte> {
    if got == [] then []
    else
      var last := got[|got| - 1].payload;
      Mirrored(got[..|got| - 1]) + if last.LogChunk? then last.data else []
  }

  lemma MirroredAppend(got: seq<Event>, e: Event)
    ensures Mirrored(got + [e]) == Mirrored(got) + if e.payload.LogChunk? then e.payload.data else []
  {
    assert (got + [e])[..|got|] == got;
  }

  lemma {:induction false} MirroredConcat(a: seq<Event>, b: seq<Event>)
    ensures Mirrored(a + b) == Mirrored(a) + Mirrored(b)
  {
    if b == [] {
      assert a + b == a;
    } else {
      var last := |b| - 1;
      MirroredConcat(a, b[..last]);
      assert (a + b)[..|a + b| - 1] == a + b[..last];
    }
  }

  function TerminalOf(got: seq<Event>): End
    requires EndsInTerminal(got)
  {
    var p := got[|got| - 1].payload;
    Terminal(p.exitCode, p.message)
  }

  datatype Turn = Return(f: Followed) | Again(cursor: nat, got: seq<Event>)

  /** One attempt: what it returns, or the cursor it leaves for the next one. */
  function TurnOf(doneBefore: bool, attempt: Attempt, doneAfter: bool, cursor: nat): Turn {
    if doneBefore then Return(Followed(None, cursor, []))
    else
      match attempt
      case CannotOpen => Again(cursor, [])
      case UnknownExecution => Return(Followed(Some(Unknown), cursor, []))
      case Stream(events, ending, idleFired) =>
        var got := Processed(events);
        var next := CursorAfter(cursor, got);
        if EndsInTerminal(got) then Return(Followed(Some(TerminalOf(got)), next, got))
        else if idleFired then Return(Followed(Some(Stalled), next, got))
        else if ending.ExecutionGone? then Return(Followed(Some(Unknown), next, got))
        else if doneAfter then Return(Followed(None, next, got))
        else Again(next, got)
  }

  function TurnOnce(s: Script, turn: nat, cursor: nat): Turn {
    TurnOf(s.doneBefore(turn), s.attempt(turn, cursor), s.doneAfter(turn), cursor)
  }

  function After(got: seq<Event>, f: Followed): Followed {
    f.(got := got + f.got)
  }

  /** Reconnecting from the cursor until a terminal, an unknown execution, a stall or the context's end. */
  function Follow(s: Script, turn: nat, cursor: nat): Followed
    decreases s.turns - turn
  {
    if turn >= s.turns then Followed(None, cursor, [])
    else
      match TurnOnce(s, turn, cursor)
      case Return(f) => f
      case Again(next, got) => After(got, Follow(s, turn + 1, next))
  }

  lemma AfterAfter(a: seq<Event>, b: seq<Event>, f: Followed)
    ensures After(a, After(b, f)) == After(a + b, f)
  {
    assert a + (b + f.got) == (a + b) + f.got;
  }

  // ----- the loops --------------------------------------------------------------------------

  /** Events before the first terminal are all processed. */
  lemma {:induction false} ProcessedAt(events: seq<Event>, i: nat)
    requires i <= |events| && forall j :: 0 <= j < i ==> !events[j].payload.TerminalResult?
    ensures i == |events| ==> Processed(events) == events
    ensures i < |events| && events[i].payload.TerminalResult? ==> Processed(events) == events[..i + 1]
  {
    if i > 0 {
      ProcessedAt(events[1..], i - 1);
      assert events == [events[0]] + events[1..];
      assert i < |events| ==> events[..i + 1] == [events[0]] + events[1..][..i];
    }
  }

  method DrainStream(events: seq<Event>, from: nat, sink: bool)
    returns (terminal: Option<Payload>, cursor: nat, written: seq<byte>)
    ensures cursor == CursorAfter(from, Processed(events))
    ensures terminal == if EndsInTerminal(Processed(events))
                        then Some(Processed(events)[|Processed(events)| - 1].payload) else None
    ensures written == if sink then Mirrored(Processed(events)) else []
  {
    hide Processed, Mirrored;
    cursor, written := from, [];
    assert Mirrored(events[..0]) == [] by { NothingMirrored(); }
    for i := 0 to |events|
      invariant forall j :: 0 <= j < i ==> !events[j].payload.TerminalResult?
      invariant cursor == CursorAfter(from, events[..i])
      invariant written == if sink then Mirrored(events[..i]) else []
    {
      var event := events[i];
      assert events[..i + 1] == events[..i] + [event];
      MirroredAppend(events[..i], event);
      ProcessedAt(events, i);
      cursor := event.sequence;
      if event.payload.LogChunk? && sink {
        if |event.payload.data| > 0 { written := written + event.payload.data; }
      }
      if event.payload.TerminalResult? {
        return Some(event.payload), cursor, written;
      }
    }
    assert events[..|events|] == events;
    ProcessedAt(events, |events|);
    terminal := None;
  }

  lemma NothingMirrored()
    ensures Mirrored([]) == []
  {
  }

  lemma NothingAfterTheScript(s: Script, turn: nat, cursor: nat, got: seq<Event>)
    requires turn >= s.turns
    ensures After(got, Follow(s, turn, cursor)) == Followed(None, cursor, got)
  {
    assert got + [] == got;
  }

  /** Following a turn that goes on is following from the next one, behind what this one processed. */
  lemma Unfold(s: Script, turn: nat, cursor: nat, before: seq<Event>)
    requires turn < s.turns
    ensures match TurnOnce(s, turn, cursor)
            case Return(f) =>
              After(before, Follow(s, turn, cursor)) == Followed(f.end, f.cursor, before + f.got)
            case Again(next, got) =>
              After(before, Follow(s, turn, cursor)) == After(before + got, Follow(s, turn + 1, next))
  {
    hide TurnOnce;
    match TurnOnce(s, turn, cursor)
    case Return(f) =>
    case Again(next, got) => AfterAfter(before, got, Follow(s, turn + 1, next));
  }

  /** One round of the reconnect loop. */
  method AttemptOnce(s: Script, turn: nat, from: nat, sink: bool)
    returns (stop: bool, end: Option<End>, cursor: nat, written: seq<byte>, ghost got: seq<Event>)
    ensures TurnOnce(s, turn, from) == if stop then Return(Followed(end, cursor, got)) else Again(cursor, got)
    ensures written == if sink then Mirrored(got) else []
  {
    hide Processed, CursorAfter;
    stop, end, cursor, written, got := true, None, from, [], [];
    if s.doneBefore(turn) { return; }
    match s.attempt(turn, from) {
      case CannotOpen => stop := false;
      case UnknownExecution => end := Some(Unknown);
      case Stream(events, ending, idleFired) =>
        var terminal;
        terminal, cursor, written := DrainStream(events, from, sink);
        got := Processed(events);
        if terminal.Some? {
          end := Some(Terminal(terminal.value.exitCode, terminal.value.message));
        } else if idleFired {
          end := Some(Stalled);
        } else if ending.ExecutionGone? {
          end := Some(Unknown);
        } else {
          stop := s.doneAfter(turn);
        }
    }
  }

  method DrainToTerminal(s: Script, from: nat, sink: bool)
    returns (end: Option<End>, cursor: nat, written: seq<byte>)
    ensures end == Follow(s, 0, from).end && cursor == Follow(s, 0, from).cursor
    ensures written == if sink then Mirrored(Follow(s, 0, from).got) else []
  {
    cursor, written := from, [];
    ghost var got: seq<Event> := [];
    ghost var whole := After([], Follow(s, 0, from));
    assert whole.got == Follow(s, 0, from).got;
    hide Follow, After, Mirrored, TurnOnce;
    NothingMirrored();
    for turn := 0 to s.turns
      invariant whole == After(got, Follow(s, turn, cursor))
      invariant written == if sink then Mirrored(got) else []
    {
      Unfold(s, turn, cursor, got);
      var stop, chunk;
      ghost var more;
      stop, end, cursor, chunk, more := AttemptOnce(s, turn, cursor, sink);
      MirroredConcat(got, more);
      got, written := got + more, written + chunk;
      if stop { return; }
    }
    NothingAfterTheScript(s, s.turns, cursor, got);
    end := None;
  }

  /** A job's drain: while its context lives, and after a custom cause ended it. */
  datatype JobScript = JobScript(following: Script, cause: Option<Cause>, teardown: Script)

  /** Does the job's drain go on to cancel the guest job and follow it to its end? */
  predicate TearsDown(s: JobScript, from: nat) {
    Follow(s.following, 0, from).end.None? && ClassifyCancel(s.cause) != CancelDetach
  }

  /** Everything one job's drain processed, over both phases. */
  function Drained(s: JobScript, from: nat): Followed {
    var first := Follow(s.following, 0, from);
    if TearsDown(s, from) then After(first.got, Follow(s.teardown, 0, first.cursor)) else first
  }

  /** The drain ended in a terminal with an exit code other than 0. */
  predicate Failed(f: Followed) {
    f.end.Some? && f.end.value.Terminal? && f.end.value.exitCode != 0
  }

  /**
   What the error of a drained job tells the pool: the job's own failure for a nonzero terminal before any
   cancellation, a stall whichever drain stalled, cancelled for a detach, no error for a zero terminal or an
   execution the guest no longer knows; the rest is a teardown drain that ran out of time or saw the job fail.
   */
  predicate Reported(s: JobScript, from: nat, err: Option<P.Err>) {
    var (first, f) := (Follow(s.following, 0, from), Drained(s, from));
    && (err == Some(P.JobTerminal) <==> Failed(first))
    && (err == Some(P.DrainStalled) <==> f.end == Some(Stalled))
    && (err == Some(P.Canceled) <==> first.end.None? && (s.cause == Some(Canceled) || s.cause == Some(DeadlineExceeded)))
    && (err == None <==> f.end.Some? && (f.end.value.Unknown? || (f.end.value.Terminal? && f.end.value.exitCode == 0)))
    && (err == Some(P.OtherErr) <==>
          first.end.None? && s.cause != Some(Canceled) && s.cause != Some(DeadlineExceeded) && (f.end.None? || Failed(f)))
  }

  method DrainJob(s: JobScript, from: nat, sink: bool)
    returns (err: Option<P.Err>, cursor: nat, written: seq<byte>, cancelRequested: bool)
    ensures cancelRequested == TearsDown(s, from)
    ensures cancelRequested <==>
              Follow(s.following, 0, from).end.None? && s.cause != Some(Canceled) && s.cause != Some(DeadlineExceeded)
    ensures cursor == Drained(s, from).cursor
    ensures written == if sink then Mirrored(Drained(s, from).got) else []
    ensures Reported(s, from, err)
  {
    hide Follow, Mirrored;
    var end;
    end, cursor, written := DrainToTerminal(s.following, from, sink);
    cancelRequested := false;
    if end.Some? {
      match end.value {
        case Stalled => return Some(P.DrainStalled), cursor, written, false;
        case Unknown => return None, cursor, written, false;
        case Terminal(exitCode, _) =>
          if exitCode != 0 { return Some(P.JobTerminal), cursor, written, false; }
          return None, cursor, written, false;
      }
    }
    if ClassifyCancel(s.cause) == CancelDetach { return Some(P.Canceled), cursor, written, false; }
    cancelRequested := true;
    var chunk;
    MirroredConcat(Follow(s.following, 0, from).got, Follow(s.teardown, 0, cursor).got);
    end, cursor, chunk := DrainToTerminal(s.teardown, cursor, sink);
    written := written + chunk;
    if end.None? { return Some(P.OtherErr), cursor, written, true; }
    match end.value {
      case Stalled => err := Some(P.DrainStalled);
      case Unknown => err := None;
      case Terminal(exitCode, _) => err := if exitCode == 0 then None else Some(P.OtherErr);
    }
  }

  /** Dispatch has no cursor yet, so a job that runs or ran already is replayed from its first event. */
  method RunJob(repo: string, reachable: bool, minted: bool, answer: Option<R.Outcome>, s: JobScript, sink: bool)
    returns (err: Option<P.Err>, cursor: nat, written: seq<byte>, drained: bool)
    ensures drained <==>
              '/' in repo && reachable && minted
              && (answer == Some(R.Accepted) || answer == Some(R.AlreadyRunning) || answer == Some(R.AlreadyCompleted))
    ensures drained ==>
              cursor == Drained(s, 0).cursor && written == (if sink then Mirrored(Drained(s, 0).got) else [])
              && Reported(s, 0, err)
    ensures !drained ==> err == Some(P.OtherErr) && cursor == 0 && written == []
  {
    hide Follow, Mirrored;
    err, cursor, written, drained := Some(P.OtherErr), 0, [], false;
    if '/' !in repo { return; }
    if !reachable { return; }
    if !minted { return; }
    if answer.None? { return; }
    match answer.value {
      case Accepted =>
      case AlreadyRunning =>
      case AlreadyCompleted =>
      case Conflict => return;
      case ErrDraining => return;
    }
    drained := true;
    var torn;
    err, cursor, written, torn := DrainJob(s, 0, sink);
  }

  // ----- what the loops guarantee -----------------------------------------------------------

  /** An in-order piece of the log behind the cursor, evicted chunks bare. */
  predicate IsPieceOf(log: seq<Payload>, cursor: nat, events: seq<Event>) {
    && (events != [] ==> cursor + |events| <= |log|)
    && forall i :: 0 <= i < |events| ==>
         && events[i].sequence == cursor + 1 + i
         && Delivers(events[i].payload, log[cursor + i])
  }

  /** Every stream the script opens delivers a piece of this log. */
  ghost predicate Truthful(log: seq<Payload>, s: Script) {
    forall turn: nat, cursor: nat :: s.attempt(turn, cursor).Stream? ==>
      IsPieceOf(log, cursor, s.attempt(turn, cursor).events)
  }

  /** Exactly the log behind `from`, up to the cursor, with a terminal only where the drain ended in it. */
  predicate ExactlyOnce(log: seq<Payload>, from: nat, f: Followed) {
    && f.cursor == from + |f.got| && IsPieceOf(log, from, f.got)
    && (forall i :: 0 <= i < |f.got| - 1 ==> !f.got[i].payload.TerminalResult?)
    && (EndsInTerminal(f.got) <==> f.end.Some? && f.end.value.Terminal?)
    && (EndsInTerminal(f.got) ==> f.end == Some(TerminalOf(f.got)))
  }

  lemma {:induction false} ProcessedIsPrefix(events: seq<Event>)
    ensures |Processed(events)| <= |events| && Processed(events) == events[..|Processed(events)|]
    ensures forall i :: 0 <= i < |Processed(events)| - 1 ==> !Processed(events)[i].payload.TerminalResult?
    ensures !EndsInTerminal(Processed(events)) ==> Processed(events) == events
  {
    if events != [] && !events[0].payload.TerminalResult? {
      ProcessedIsPrefix(events[1..]);
      assert events == [events[0]] + events[1..];
    }
  }

  /** Pieces that meet are one piece. */
  lemma PiecesMeet(log: seq<Payload>, from: nat, a: seq<Event>, b: seq<Event>)
    requires IsPieceOf(log, from, a) && IsPieceOf(log, from + |a|, b)
    ensures IsPieceOf(log, from, a + b)
  {
    forall i | 0 <= i < |a + b|
      ensures (a + b)[i] == if i < |a| then a[i] else b[i - |a|]
    {
    }
  }

  /** The first terminal among the events. */
  predicate FirstTerminal(events: seq<Event>, j: nat) {
    && j < |events| && events[j].payload.TerminalResult?
    && forall i :: 0 <= i < j ==> !events[i].payload.TerminalResult?
  }

  predicate NoTerminal(events: seq<Event>) {
    forall i :: 0 <= i < |events| ==> !events[i].payload.TerminalResult?
  }

  /** The sequence number of the last of these events, or the one before all of them. */
  function LastNumber(events: seq<Event>, cursor: nat): nat {
    if events == [] then cursor else events[|events| - 1].sequence
  }

  /**
   What one attempt decides, in this order: a context that is done detaches; an execution the guest does not
   know ends the drain; a terminal received ends it, whatever broke afterwards; so does an idle stream, then
   one that says the execution is gone, then the context. In all other cases the drain goes on behind the
   last event it received.
   */
  lemma AttemptDecides(s: Script, turn: nat, cursor: nat)
    requires turn < s.turns
    ensures var (a, f) := (s.attempt(turn, cursor), Follow(s, turn, cursor));
      && (s.doneBefore(turn) ==> f == Followed(None, cursor, []))
      && (!s.doneBefore(turn) && a.UnknownExecution? ==> f == Followed(Some(Unknown), cursor, []))
      && (!s.doneBefore(turn) && a.CannotOpen? ==> f == Follow(s, turn + 1, cursor))
      && (!s.doneBefore(turn) && a.Stream? ==>
            && (forall j: nat :: FirstTerminal(a.events, j) ==>
                  var p := a.events[j].payload;
                  f == Followed(Some(Terminal(p.exitCode, p.message)), a.events[j].sequence, a.events[..j + 1]))
            && (NoTerminal(a.events) ==>
                  var last := LastNumber(a.events, cursor);
                  if a.idleFired then f == Followed(Some(Stalled), last, a.events)
                  else if a.ending == ExecutionGone then f == Followed(Some(Unknown), last, a.events)
                  else if s.doneAfter(turn) then f == Followed(None, last, a.events)
                  else f == After(a.events, Follow(s, turn + 1, last))))
  {
    var a := s.attempt(turn, cursor);
    if a.CannotOpen? { assert After([], Follow(s, turn + 1, cursor)) == Follow(s, turn + 1, cursor); }
    if a.Stream? {
      if NoTerminal(a.events) { ProcessedAt(a.events, |a.events|); }
      forall j: nat | FirstTerminal(a.events, j)
        ensures Processed(a.events) == a.events[..j + 1]
      {
        ProcessedAt(a.events, j);
      }
      hide Processed;
    }
  }

  // ----- the run log ------------------------------------------------------------------------

  function ChunkOf(e: Event): seq<byte> {
    if e.payload.LogChunk? then e.payload.data else []
  }

  lemma MirroredOne(e: Event)
    ensures Mirrored([e]) == ChunkOf(e)
  {
    MirroredAppend([], e);
    assert [] + [e] == [e];
  }

  /** Each event's data is in the mirrored bytes, where the data of all events before it ends, and nothing else is. */
  lemma MirroredInOrder(got: seq<Event>, i: nat)
    requires i < |got|
    ensures |Mirrored(got)| == LiveBytes(got)
    ensures var (begin, end) := (LiveBytes(got[..i]), LiveBytes(got[..i + 1]));
      && end == begin + |ChunkOf(got[i])| && end <= |Mirrored(got)|
      && Mirrored(got)[begin..end] == ChunkOf(got[i])
  {
    hide Mirrored, LiveBytes;
    var before, after := got[..i], got[i + 1..];
    assert got == got[..i + 1] + after && got[..i + 1] == before + [got[i]];
    MirroredConcat(got[..i + 1], after);
    MirroredConcat(before, [got[i]]);
    MirroredOne(got[i]);
    MirroredLength(got);
    MirroredLength(before);
    MirroredLength(got[..i + 1]);
  }

  lemma {:induction false} MirroredLength(got: seq<Event>)
    ensures |Mirrored(got)| == LiveBytes(got)
  {
    if got != [] { MirroredLength(got[..|got| - 1]); }
  }

  /** Nothing of this piece of the log was evicted. */
  predicate Unevicted(log: seq<Payload>, from: nat, got: seq<Event>) {
    from + |got| <= |log| && forall i :: 0 <= i < |got| ==> got[i].payload == log[from + i]
  }

  lemma {:induction false} LiveIsLogged(log: seq<Payload>, from: nat, got: seq<Event>)
    requires Unevicted(log, from, got)
    ensures LiveBytes(got) == BytesFrom(log, from) - BytesFrom(log, from + |got|)
  {
    if got != [] {
      var last := |got| - 1;
      LiveIsLogged(log, from, got[..last]);
      assert got[last].payload == log[from + last];
    }
  }

  /**
   The run log of a drain that met no evicted chunk holds the data of every chunk behind its start up to its
   cursor, of both streams, in the order of the log: as many bytes as the guest logged there, each chunk's
   where the chunks before it end.
   */
  lemma RunLogIsTheLog(log: seq<Payload>, s: JobScript, from: nat, i: nat)
    requires Truthful(log, s.following) && Truthful(log, s.teardown)
    requires Drained(s, from).got != [] && Unevicted(log, from, Drained(s, from).got) && i < |Drained(s, from).got|
    ensures var (f, written) := (Drained(s, from), Mirrored(Drained(s, from).got));
      && f.cursor == from + |f.got| <= |log|
      && |written| == BytesFrom(log, from) - BytesFrom(log, f.cursor)
      && var (begin, p) := (BytesFrom(log, from) - BytesFrom(log, from + i), log[from + i]);
         0 <= begin && (p.LogChunk? ==> begin + |p.data| <= |written| && written[begin..begin + |p.data|] == p.data)
  {
    DrainedExactlyOnce(log, s, from);
    var got := Drained(s, from).got;
    hide Drained, Truthful;
    MirroredInOrder(got, i);
    LiveIsLogged(log, from, got);
    LiveIsLogged(log, from, got[..i]);
    BytesFromMonotone(log, from, from + i);
  }

  lemma OnceThenOnce(log: seq<Payload>, from: nat, got: seq<Event>, f: Followed)
    requires IsPieceOf(log, from, got) && ExactlyOnce(log, from + |got|, f)
    requires forall i :: 0 <= i < |got| ==> !got[i].payload.TerminalResult?
    ensures ExactlyOnce(log, from, After(got, f))
  {
    PiecesMeet(log, from, got, f.got);
    hide IsPieceOf;
  }

  lemma TurnIsExact(log: seq<Payload>, s: Script, turn: nat, cursor: nat)
    requires Truthful(log, s)
    ensures match TurnOnce(s, turn, cursor)
            case Return(f) => ExactlyOnce(log, cursor, f)
            case Again(next, got) =>
              && next == cursor + |got| && IsPieceOf(log, cursor, got)
              && forall i :: 0 <= i < |got| ==> !got[i].payload.TerminalResult?
  {
    var a := s.attempt(turn, cursor);
    if a.Stream? {
      ProcessedIsPrefix(a.events);
      hide Processed;
      assert IsPieceOf(log, cursor, a.events);
    }
  }

  /** For any pattern of failed opens, drops and reconnects a drain processes the log exactly once. */
  lemma {:induction false} FollowIsExact(log: seq<Payload>, s: Script, turn: nat, cursor: nat)
    requires Truthful(log, s)
    ensures ExactlyOnce(log, cursor, Follow(s, turn, cursor))
    decreases s.turns - turn
  {
    if turn < s.turns {
      TurnIsExact(log, s, turn, cursor);
      hide TurnOnce, Truthful, IsPieceOf;
      match TurnOnce(s, turn, cursor)
      case Return(f) =>
      case Again(next, got) =>
        FollowIsExact(log, s, turn + 1, next);
        OnceThenOnce(log, cursor, got, Follow(s, turn + 1, next));
    }
  }

  /**
   Over both phases of a job's drain, the switch to the teardown drain included, every event behind
   `from` up to the cursor is processed exactly once, in order, ending at the terminal when the drain
   reports one.
   */
  lemma DrainedExactlyOnce(log: seq<Payload>, s: JobScript, from: nat)
    requires Truthful(log, s.following) && Truthful(log, s.teardown)
    ensures ExactlyOnce(log, from, Drained(s, from))
  {
    hide Follow, Truthful, IsPieceOf;
    FollowIsExact(log, s.following, 0, from);
    var first := Follow(s.following, 0, from);
    if TearsDown(s, from) {
      FollowIsExact(log, s.teardown, 0, first.cursor);
      OnceThenOnce(log, from, first.got, Follow(s.teardown, 0, first.cursor));
    }
  }
}
