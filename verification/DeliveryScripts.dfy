/**
 The drains of the whole system are runs of the host's loops: what any of them recorded is a script whose
 streams tell the truth about the guest's log, and the loops on that script compute what the drain did.
 */
module DeliveryScripts {
  import opened Wrappers
  import opened EventLog
  import opened RegistrySections
  import opened GuestSafety
  import opened DeliverySafety
  import H = HostDrain
  import D = Delivery

  /** The environment that the rounds of one phase met. */
  function ScriptOf(rounds: seq<D.Round>): H.Script {
    H.Script(|rounds|,
             (t: nat, c: nat) => if t < |rounds| && rounds[t].cursor == c then rounds[t].attempt else H.CannotOpen,
             (t: nat) => t < |rounds| && rounds[t].doneBefore,
             (t: nat) => t < |rounds| && rounds[t].doneAfter)
  }

  function TurnOfRound(r: D.Round): H.Turn {
    H.TurnOf(r.doneBefore, r.attempt, r.doneAfter, r.cursor)
  }

  /** The rounds so far went on from one to the next, and together processed `got`. */
  predicate Chain(rounds: seq<D.Round>, from: nat, cursor: nat, got: seq<Event>) {
    if rounds == [] then cursor == from && got == []
    else
      var last := rounds[|rounds| - 1];
      var turn := TurnOfRound(last);
      && turn.Again? && turn.cursor == cursor && |turn.got| <= |got|
      && got[|got| - |turn.got|..] == turn.got
      && Chain(rounds[..|rounds| - 1], from, last.cursor, got[..|got| - |turn.got|])
  }

  lemma ChainNext(rounds: seq<D.Round>, from: nat, got: seq<Event>, r: D.Round)
    requires Chain(rounds, from, r.cursor, got) && TurnOfRound(r).Again?
    ensures Chain(rounds + [r], from, TurnOfRound(r).cursor, got + TurnOfRound(r).got)
  {
    var more := TurnOfRound(r).got;
    assert (rounds + [r])[..|rounds|] == rounds;
    assert (got + more)[..|got|] == got && (got + more)[|got|..] == more;
  }

  /** Following the script has come to the end of the chain when it has gone through those rounds. */
  lemma {:induction false} ChainFollows(rounds: seq<D.Round>, t: nat, from: nat, cursor: nat, got: seq<Event>)
    requires t <= |rounds| && Chain(rounds[..t], from, cursor, got)
    ensures H.Follow(ScriptOf(rounds), 0, from) == H.After(got, H.Follow(ScriptOf(rounds), t, cursor))
  {
    var s := ScriptOf(rounds);
    if t == 0 {
      assert [] + H.Follow(s, 0, from).got == H.Follow(s, 0, from).got;
    } else {
      var last := rounds[t - 1];
      assert rounds[..t][|rounds[..t]| - 1] == last && rounds[..t][..t - 1] == rounds[..t - 1];
      var more := TurnOfRound(last).got;
      var before := got[..|got| - |more|];
      assert got == before + more;
      ChainFollows(rounds, t - 1, from, last.cursor, before);
      assert H.TurnOnce(s, t - 1, last.cursor) == TurnOfRound(last);
      hide Chain, H.TurnOnce, H.TurnOf, ScriptOf;
      H.Unfold(s, t - 1, last.cursor, before);
    }
  }

  /** So a last round that returns is where following the script returns. */
  lemma ChainEnds(rounds: seq<D.Round>, from: nat, got: seq<Event>, r: D.Round)
    requires Chain(rounds, from, r.cursor, got) && TurnOfRound(r).Return?
    ensures var f := TurnOfRound(r).f;
      H.Follow(ScriptOf(rounds + [r]), 0, from) == H.Followed(f.end, f.cursor, got + f.got)
  {
    var all := rounds + [r];
    assert all[..|rounds|] == rounds;
    ChainFollows(all, |rounds|, from, r.cursor, got);
    assert H.TurnOnce(ScriptOf(all), |rounds|, r.cursor) == TurnOfRound(r);
    hide Chain, ScriptOf, H.TurnOnce, H.TurnOf;
  }

  // ----- what a drain has on record ---------------------------------------------------------

  function EndOf(how: D.DrainEnd): Option<H.End> {
    match how
    case Terminal(exitCode, message) => Some(H.Terminal(exitCode, message))
    case Expired => Some(H.Unknown)
    case DrainStalled => Some(H.Stalled)
    case Detached => None
    case TimedOut => None
  }

  /** What the drain received in this phase, before the round under way. */
  function PhaseGot(d: D.Drain): seq<Event> {
    var upTo := if d.pc.Attached? then d.pc.session.mark else |d.got|;
    if d.split <= upTo <= |d.got| then D.EventsOf(d.got[d.split..upTo]) else []
  }

  predicate PhaseInv(d: D.Drain) {
    match d.pc
    case Attached(s) =>
      d.split <= s.mark <= |d.got| && s.openedAt == d.from + s.mark
      && Chain(d.rounds, d.from + d.split, s.openedAt, PhaseGot(d))
    case Returned(how) =>
      && H.Follow(ScriptOf(d.rounds), 0, d.from + d.split) == H.Followed(EndOf(how), d.cursor, PhaseGot(d))
      && (how.Detached? ==> d.phase == D.Following && d.stop == Some(D.PlainStop))
      && (how.TimedOut? ==> d.phase == D.TearingDown)
    case Top => Chain(d.rounds, d.from + d.split, d.cursor, PhaseGot(d))
    case Opening => Chain(d.rounds, d.from + d.split, d.cursor, PhaseGot(d))
  }

  predicate SwitchInv(d: D.Drain) {
    && d.split <= |d.got|
    && if d.phase == D.Following then d.split == 0 && d.before == []
       else
         && d.stop == Some(D.CustomStop)
         && H.Follow(ScriptOf(d.before), 0, d.from) == H.Followed(None, d.from + d.split, D.EventsOf(d.got[..d.split]))
  }

  /** The stream of a recorded round is the part of the received events that its cursor points at. */
  predicate Within(from: nat, got: seq<Event>, r: D.Round) {
    r.attempt.Stream? ==>
      && from <= r.cursor && r.cursor - from + |r.attempt.events| <= |got|
      && r.attempt.events == got[r.cursor - from..r.cursor - from + |r.attempt.events|]
  }

  predicate RecordsInv(d: D.Drain) {
    && (forall t :: 0 <= t < |d.rounds| ==> Within(d.from, D.EventsOf(d.got), d.rounds[t]))
    && (forall t :: 0 <= t < |d.before| ==> Within(d.from, D.EventsOf(d.got), d.before[t]))
  }

  predicate RoundsInv(d: D.Drain) {
    PhaseInv(d) && SwitchInv(d) && RecordsInv(d)
  }

  lemma WithinMore(from: nat, got: seq<Event>, e: Event, r: D.Round)
    requires Within(from, got, r)
    ensures Within(from, got + [e], r)
  {
  }

  lemma EventsAppend(got: seq<D.Got>, g: D.Got)
    ensures D.EventsOf(got + [g]) == D.EventsOf(got) + [g.event]
  {
  }

  /** The received events from one place on. */
  lemma EventsSlice(got: seq<D.Got>, a: nat, b: nat)
    requires a <= b <= |got|
    ensures D.EventsOf(got)[a..b] == D.EventsOf(got[a..b])
  {
  }

  /** What the stream under way has delivered. */
  function SessionGot(d: D.Drain): seq<Event>
    requires d.pc.Attached? && d.pc.session.mark <= |d.got|
  {
    D.EventsOf(d.got[d.pc.session.mark..])
  }

  lemma SessionFacts(heap: seq<Exec>, d: D.Drain)
    requires GotInv(heap, d) && EndInv(d) && d.pc.Attached? && d.pc.session.mark <= |d.got|
    ensures forall i :: 0 <= i < |SessionGot(d)| ==> !SessionGot(d)[i].payload.TerminalResult?
    ensures H.Processed(SessionGot(d)) == SessionGot(d)
    ensures H.CursorAfter(d.from + d.pc.session.mark, SessionGot(d)) == d.cursor
  {
    hide IsEventOf, Named;
    H.ProcessedAt(SessionGot(d), |SessionGot(d)|);
  }

  lemma SessionWithin(d: D.Drain, idleFired: bool, doneAfter: bool)
    requires d.pc.Attached? && d.pc.session.mark <= |d.got| && d.pc.session.openedAt == d.from + d.pc.session.mark
    ensures Within(d.from, D.EventsOf(d.got),
                   D.Round(d.pc.session.openedAt, false, H.Stream(SessionGot(d), H.Broken, idleFired), doneAfter))
  {
    EventsSlice(d.got, d.pc.session.mark, |d.got|);
  }

  lemma PhaseSplits(d: D.Drain)
    requires d.pc.Attached? && d.split <= d.pc.session.mark <= |d.got|
    ensures D.EventsOf(d.got[d.split..]) == PhaseGot(d) + SessionGot(d)
  {
  }

  /** The round that a broken or idle stream comes to. */
  lemma StreamTurn(cursor: nat, events: seq<Event>, idleFired: bool, doneAfter: bool)
    requires H.Processed(events) == events
    requires forall i :: 0 <= i < |events| ==> !events[i].payload.TerminalResult?
    ensures TurnOfRound(D.Round(cursor, false, H.Stream(events, H.Broken, idleFired), doneAfter))
         == if idleFired then H.Return(H.Followed(Some(H.Stalled), H.CursorAfter(cursor, events), events))
            else if doneAfter then H.Return(H.Followed(None, H.CursorAfter(cursor, events), events))
            else H.Again(H.CursorAfter(cursor, events), events)
  {
    hide H.Processed, H.CursorAfter;
  }

  lemma TerminalTurn(cursor: nat, events: seq<Event>, e: Event)
    requires forall i :: 0 <= i < |events| ==> !events[i].payload.TerminalResult?
    requires e.payload.TerminalResult?
    ensures TurnOfRound(D.Round(cursor, false, H.Stream(events + [e], H.Broken, false), false))
         == H.Return(H.Followed(Some(H.Terminal(e.payload.exitCode, e.payload.message)), e.sequence, events + [e]))
  {
    H.ProcessedAt(events + [e], |events|);
    assert (events + [e])[..|events| + 1] == events + [e];
    hide H.Processed;
  }

  lemma RecordsMore(d: D.Drain, d': D.Drain, r: D.Round)
    requires RecordsInv(d) && Within(d.from, D.EventsOf(d.got), r) && d'.from == d.from && d'.got == d.got
    requires || (d'.rounds == d.rounds + [r] && d'.before == d.before)
             || (d'.rounds == [] && d'.before == d.rounds + [r])
    ensures RecordsInv(d')
  {
    hide Within, D.EventsOf;
  }

  lemma SwitchSame(d: D.Drain, d': D.Drain)
    requires SwitchInv(d)
    requires d'.phase == d.phase && d'.split == d.split && d'.before == d.before && d'.from == d.from && d'.got == d.got
    requires d'.stop == d.stop || (d.stop.None? && d'.stop.Some?)
    ensures SwitchInv(d')
  {
    hide ScriptOf, H.Follow;
  }

  /** A round that goes on. */
  lemma RoundGoesOn(d: D.Drain, d': D.Drain, r: D.Round, got: seq<Event>)
    requires Chain(d.rounds, d.from + d.split, r.cursor, got) && TurnOfRound(r).Again?
    requires d'.rounds == d.rounds + [r] && d'.from == d.from && d'.split == d.split && d'.pc.Top?
    requires d'.cursor == TurnOfRound(r).cursor && PhaseGot(d') == got + TurnOfRound(r).got
    ensures PhaseInv(d')
  {
    hide TurnOfRound, Chain, PhaseGot, ScriptOf, H.Follow;
    ChainNext(d.rounds, d.from + d.split, got, r);
  }

  /** A round that returns. */
  lemma RoundReturns(d: D.Drain, d': D.Drain, r: D.Round, got: seq<Event>, how: D.DrainEnd)
    requires Chain(d.rounds, d.from + d.split, r.cursor, got) && TurnOfRound(r).Return?
    requires d'.rounds == d.rounds + [r] && d'.from == d.from && d'.split == d.split && d'.pc == D.Returned(how)
    requires TurnOfRound(r).f.end == EndOf(how) && TurnOfRound(r).f.cursor == d'.cursor
    requires PhaseGot(d') == got + TurnOfRound(r).f.got
    requires how.Detached? ==> d'.phase == D.Following && d'.stop == Some(D.PlainStop)
    requires how.TimedOut? ==> d'.phase == D.TearingDown
    ensures PhaseInv(d')
  {
    hide TurnOfRound, Chain, PhaseGot, ScriptOf, H.Follow;
    ChainEnds(d.rounds, d.from + d.split, got, r);
  }

  /** The context's end after a round: detached, given up, or on to the teardown drain. */
  lemma StopKeeps(heap: seq<Exec>, d: D.Drain, r: D.Round, got: seq<Event>, e: D.Drain)
    requires GotInv(heap, d) && SwitchInv(d) && RecordsInv(d) && D.ContextDone(d)
    requires Chain(d.rounds, d.from + d.split, r.cursor, got)
    requires TurnOfRound(r).Return? && TurnOfRound(r).f.end == None && TurnOfRound(r).f.cursor == d.cursor
    requires D.EventsOf(d.got[d.split..]) == got + TurnOfRound(r).f.got
    requires Within(d.from, D.EventsOf(d.got), r)
    requires e == D.Stopped(d.(rounds := d.rounds + [r]))
    ensures RoundsInv(e)
  {
    hide TurnOfRound, Within, IsEventOf, Chain, ScriptOf, H.Follow;
    RecordsMore(d, e, r);
    hide RecordsInv;
    assert d.stop.Some? ==> d.stop.value.PlainStop? || d.stop.value.CustomStop?;
    if e.pc.Returned? {
      assert e.got[e.split..|e.got|] == d.got[d.split..];
      assert PhaseGot(e) == got + TurnOfRound(r).f.got;
      RoundReturns(d, e, r, got, e.pc.how);
    } else {
      assert d.split == 0 && d.got[..|d.got|] == d.got && d.got[0..] == d.got;
      ChainEnds(d.rounds, d.from, got, r);
      EmptyChain(d.cursor);
      assert PhaseGot(e) == [];
    }
  }

  lemma EmptyChain(cursor: nat)
    ensures Chain([], cursor, cursor, [])
  {
  }

  // ----- act by act -------------------------------------------------------------------------

  lemma NotReturned(d: D.Drain)
    requires PhaseInv(d) && (d.pc.Top? || d.pc.Opening?) && d.split <= |d.got|
    ensures Chain(d.rounds, d.from + d.split, d.cursor, D.EventsOf(d.got[d.split..]))
  {
    assert d.got[d.split..|d.got|] == d.got[d.split..];
    hide Chain;
  }

  lemma CheckTurn(cursor: nat)
    ensures TurnOfRound(D.Round(cursor, true, H.CannotOpen, false)) == H.Return(H.Followed(None, cursor, []))
    ensures TurnOfRound(D.Round(cursor, false, H.CannotOpen, false)) == H.Again(cursor, [])
    ensures TurnOfRound(D.Round(cursor, false, H.UnknownExecution, false))
         == H.Return(H.Followed(Some(H.Unknown), cursor, []))
  {
  }

  lemma CheckStops(r: Reg, d: D.Drain)
    requires GotInv(r.heap, d) && RoundsInv(d) && D.DrainEnabled(r, d, D.CheckContext) && D.ContextDone(d)
    ensures RoundsInv(D.DrainApply(r, d, D.CheckContext))
  {
    assert d.split <= |d.got|;
    hide Chain, GotInv, SwitchInv, RecordsInv, ScriptOf, H.Follow, TurnOfRound, D.EventsOf;
    NotReturned(d);
    CheckTurn(d.cursor);
    var round := D.Round(d.cursor, true, H.CannotOpen, false);
    assert Within(d.from, D.EventsOf(d.got), round);
    var got := D.EventsOf(d.got[d.split..]);
    assert got + [] == got;
    assert D.DrainApply(r, d, D.CheckContext) == D.Stopped(d.(rounds := d.rounds + [round]));
    hide PhaseInv, Within, D.DrainApply, D.Stopped;
    StopKeeps(r.heap, d, round, got, D.DrainApply(r, d, D.CheckContext));
  }

  lemma CheckGoesOn(r: Reg, d: D.Drain)
    requires RoundsInv(d) && D.DrainEnabled(r, d, D.CheckContext) && !D.ContextDone(d)
    ensures RoundsInv(D.DrainApply(r, d, D.CheckContext))
  {
    var d' := d.(pc := D.Opening);
    assert D.DrainApply(r, d, D.CheckContext) == d';
    assert PhaseGot(d') == PhaseGot(d);
    hide Chain, SwitchInv, RecordsInv, PhaseGot, D.DrainApply, D.EventsOf;
    SameSwitch(d, d');
  }

  lemma CheckKeeps(r: Reg, d: D.Drain)
    requires GotInv(r.heap, d) && RoundsInv(d) && D.DrainEnabled(r, d, D.CheckContext)
    ensures RoundsInv(D.DrainApply(r, d, D.CheckContext))
  {
    hide GotInv, RoundsInv, D.DrainApply, D.DrainEnabled;
    if D.ContextDone(d) { CheckStops(r, d); } else { CheckGoesOn(r, d); }
  }

  /** Neither the phase nor the received events changed. */
  lemma SameSwitch(d: D.Drain, d': D.Drain)
    requires SwitchInv(d) && RecordsInv(d)
    requires d'.phase == d.phase && d'.split == d.split && d'.before == d.before && d'.from == d.from && d'.got == d.got
    requires d'.stop == d.stop || (d.stop.None? && d'.stop.Some?)
    requires d'.rounds == d.rounds
    ensures SwitchInv(d') && RecordsInv(d')
  {
    hide SwitchInv, Within, D.EventsOf;
    SwitchSame(d, d');
  }

  lemma OpenSucceedsKeeps(r: Reg, d: D.Drain)
    requires GotInv(r.heap, d) && RoundsInv(d) && D.DrainEnabled(r, d, D.OpenSucceeds)
    ensures RoundsInv(D.DrainApply(r, d, D.OpenSucceeds))
  {
    var d' := D.DrainApply(r, d, D.OpenSucceeds);
    assert d.cursor == d.from + |d.got|;
    assert PhaseGot(d') == PhaseGot(d);
    hide Chain, GotInv, RecordsInv, SwitchInv, PhaseGot;
    SameSwitch(d, d');
  }

  /** A round that met no stream. */
  predicate Streamless(d: D.Drain, d': D.Drain, r: D.Round) {
    && d' == d.(rounds := d.rounds + [r], pc := d'.pc) && !r.attempt.Stream? && r.cursor == d.cursor
    && d.split <= |d.got|
  }

  lemma StreamlessKeeps(d: D.Drain, d': D.Drain, r: D.Round)
    requires RoundsInv(d) && d.pc.Opening? && Streamless(d, d', r)
    requires || (d'.pc.Top? && TurnOfRound(r) == H.Again(d.cursor, []))
             || (d'.pc == D.Returned(D.Expired) && TurnOfRound(r) == H.Return(H.Followed(Some(H.Unknown), d.cursor, [])))
    ensures RoundsInv(d')
  {
    hide Chain, RecordsInv, ScriptOf, H.Follow, TurnOfRound, D.EventsOf;
    NotReturned(d);
    var got := D.EventsOf(d.got[d.split..]);
    assert got + [] == got;
    assert Within(d.from, D.EventsOf(d.got), r);
    PhaseEnds(d');
    RecordsMore(d, d', r);
    SwitchSame(d, d');
    hide PhaseInv, PhaseGot, Within, SwitchInv;
    if d'.pc.Top? { RoundGoesOn(d, d', r, got); } else { RoundReturns(d, d', r, got, D.Expired); }
  }

  lemma OpenKeepsRounds(r: Reg, d: D.Drain, a: D.DrainAct)
    requires GotInv(r.heap, d) && RoundsInv(d) && D.DrainEnabled(r, d, a)
    requires a.OpenSucceeds? || a.OpenFindsNothing? || a.OpenFails?
    ensures RoundsInv(D.DrainApply(r, d, a))
  {
    if a.OpenSucceeds? {
      OpenSucceedsKeeps(r, d);
    } else {
      assert d.split <= |d.got|;
      CheckTurn(d.cursor);
      var d' := D.DrainApply(r, d, a);
      var round := D.Round(d.cursor, false, if a.OpenFails? then H.CannotOpen else H.UnknownExecution, false);
      assert d' == d.(rounds := d.rounds + [round], pc := d'.pc);
      hide GotInv, RoundsInv, TurnOfRound;
      StreamlessKeeps(d, d', round);
    }
  }

  lemma PhaseEnds(d: D.Drain)
    requires !d.pc.Attached? && d.split <= |d.got|
    ensures PhaseGot(d) == D.EventsOf(d.got[d.split..])
  {
    assert d.got[d.split..|d.got|] == d.got[d.split..];
  }

  /** The round of the stream under way, as it goes on record. */
  function StreamRound(d: D.Drain, idleFired: bool, doneAfter: bool): D.Round
    requires d.pc.Attached? && d.pc.session.mark <= |d.got|
  {
    D.Round(d.pc.session.openedAt, false, H.Stream(SessionGot(d), H.Broken, idleFired), doneAfter)
  }

  lemma StreamRoundFacts(heap: seq<Exec>, d: D.Drain, idleFired: bool, doneAfter: bool)
    requires GotInv(heap, d) && EndInv(d) && PhaseInv(d) && d.pc.Attached?
    ensures d.split <= d.pc.session.mark <= |d.got|
    ensures var r := StreamRound(d, idleFired, doneAfter);
      && TurnOfRound(r) == (if idleFired then H.Return(H.Followed(Some(H.Stalled), d.cursor, SessionGot(d)))
                            else if doneAfter then H.Return(H.Followed(None, d.cursor, SessionGot(d)))
                            else H.Again(d.cursor, SessionGot(d)))
      && Within(d.from, D.EventsOf(d.got), r)
      && D.EventsOf(d.got[d.split..]) == PhaseGot(d) + SessionGot(d)
      && Chain(d.rounds, d.from + d.split, r.cursor, PhaseGot(d))
  {
    hide Chain, GotInv, EndInv, H.Processed, H.CursorAfter, TurnOfRound, Within, D.EventsOf;
    SessionFacts(heap, d);
    SessionWithin(d, idleFired, doneAfter);
    PhaseSplits(d);
    hide SessionGot, PhaseGot;
    StreamTurn(d.pc.session.openedAt, SessionGot(d), idleFired, doneAfter);
  }

  lemma StreamRecordedIs(d: D.Drain, idleFired: bool, doneAfter: bool)
    requires d.pc.Attached? && d.pc.session.mark <= |d.got|
    ensures D.StreamRecorded(d, idleFired, doneAfter) == d.(rounds := d.rounds + [StreamRound(d, idleFired, doneAfter)])
  {
  }

  lemma BreakStops(heap: seq<Exec>, d: D.Drain)
    requires GotInv(heap, d) && EndInv(d) && RoundsInv(d) && d.pc.Attached? && D.ContextDone(d)
    ensures RoundsInv(D.Stopped(D.StreamRecorded(d, false, true)))
  {
    hide Chain, GotInv, EndInv, TurnOfRound, Within, PhaseInv, SwitchInv, RecordsInv, PhaseGot, SessionGot, StreamRound;
    StreamRoundFacts(heap, d, false, true);
    StreamRecordedIs(d, false, true);
    assert StreamRound(d, false, true).cursor == StreamRound(d, false, true).cursor;
    hide D.Stopped, D.StreamRecorded, D.EventsOf;
    StopKeeps(heap, d, StreamRound(d, false, true), PhaseGot(d), D.Stopped(D.StreamRecorded(d, false, true)));
  }

  lemma BreakGoesOn(heap: seq<Exec>, d: D.Drain)
    requires GotInv(heap, d) && EndInv(d) && RoundsInv(d) && d.pc.Attached?
    ensures RoundsInv(D.StreamRecorded(d, false, false).(pc := D.Top))
  {
    hide Chain, GotInv, EndInv, TurnOfRound, Within, RecordsInv, PhaseGot, SessionGot, ScriptOf, H.Follow;
    StreamRoundFacts(heap, d, false, false);
    StreamRecordedIs(d, false, false);
    var r := StreamRound(d, false, false);
    hide D.StreamRecorded, D.EventsOf, PhaseInv, SwitchInv, StreamRound;
    var d' := D.StreamRecorded(d, false, false).(pc := D.Top);
    RecordsMore(d, d', r);
    SwitchSame(d, d');
    PhaseEnds(d');
    RoundGoesOn(d, d', r, PhaseGot(d));
  }

  lemma IdleReturns(heap: seq<Exec>, d: D.Drain)
    requires GotInv(heap, d) && EndInv(d) && RoundsInv(d) && d.pc.Attached?
    ensures RoundsInv(D.StreamRecorded(d, true, false).(pc := D.Returned(D.DrainStalled)))
  {
    hide Chain, GotInv, EndInv, TurnOfRound, Within, RecordsInv, PhaseGot, SessionGot, ScriptOf, H.Follow;
    StreamRoundFacts(heap, d, true, false);
    StreamRecordedIs(d, true, false);
    var r := StreamRound(d, true, false);
    hide D.StreamRecorded, D.EventsOf, PhaseInv, SwitchInv, StreamRound;
    var d' := D.StreamRecorded(d, true, false).(pc := D.Returned(D.DrainStalled));
    RecordsMore(d, d', r);
    SwitchSame(d, d');
    PhaseEnds(d');
    RoundReturns(d, d', r, PhaseGot(d), D.DrainStalled);
  }

  lemma BreakKeeps(r: Reg, d: D.Drain)
    requires GotInv(r.heap, d) && EndInv(d) && RoundsInv(d) && D.DrainEnabled(r, d, D.StreamBreaks)
    ensures RoundsInv(D.DrainApply(r, d, D.StreamBreaks))
  {
    hide GotInv, EndInv, RoundsInv, D.Stopped, D.StreamRecorded;
    if D.ContextDone(d) { BreakStops(r.heap, d); } else { BreakGoesOn(r.heap, d); }
  }

  lemma IdleKeeps(r: Reg, d: D.Drain)
    requires GotInv(r.heap, d) && EndInv(d) && RoundsInv(d) && D.DrainEnabled(r, d, D.IdleFires)
    ensures RoundsInv(D.DrainApply(r, d, D.IdleFires))
  {
    hide GotInv, EndInv, RoundsInv, D.StreamRecorded;
    IdleReturns(r.heap, d);
  }

  /** One more event received: the rounds on record still lie within what was received. */
  lemma ReceivedMore(d: D.Drain, d': D.Drain, g: D.Got)
    requires SwitchInv(d) && RecordsInv(d) && d'.got == d.got + [g]
    requires d'.phase == d.phase && d'.split == d.split && d'.before == d.before && d'.from == d.from
    requires d'.stop == d.stop && d'.rounds == d.rounds
    ensures SwitchInv(d') && RecordsInv(d')
  {
    hide ScriptOf, H.Follow;
    EventsAppend(d.got, g);
    assert d'.got[..d.split] == d.got[..d.split];
    forall t | 0 <= t < |d.rounds|
      ensures Within(d.from, D.EventsOf(d'.got), d.rounds[t])
    {
      WithinMore(d.from, D.EventsOf(d.got), g.event, d.rounds[t]);
    }
    forall t | 0 <= t < |d.before|
      ensures Within(d.from, D.EventsOf(d'.got), d.before[t])
    {
      WithinMore(d.from, D.EventsOf(d.got), g.event, d.before[t]);
    }
  }

  /** The drain after it took one event off the wire, before it looks whether that was the terminal. */
  function Taken(d: D.Drain): D.Drain
    requires d.pc.Attached? && d.pc.session.wire != []
  {
    var s := d.pc.session;
    d.(cursor := s.wire[0].sequence, got := d.got + [D.Got(s.h, s.wire[0])], anchor := Some(s.h),
       pc := D.Attached(s.(wire := s.wire[1..])))
  }

  lemma TakenGot(d: D.Drain)
    requires d.pc.Attached? && d.pc.session.wire != [] && d.split <= d.pc.session.mark <= |d.got|
    ensures PhaseGot(Taken(d)) == PhaseGot(d)
    ensures SessionGot(Taken(d)) == SessionGot(d) + [d.pc.session.wire[0]]
  {
    var s := d.pc.session;
    assert Taken(d).got[d.split..s.mark] == d.got[d.split..s.mark];
    assert Taken(d).got[s.mark..] == d.got[s.mark..] + [D.Got(s.h, s.wire[0])];
  }

  lemma TakenKeeps(d: D.Drain)
    requires RoundsInv(d) && d.pc.Attached? && d.pc.session.wire != []
    ensures d.pc.session.mark <= |d.got|
    ensures RoundsInv(Taken(d)) && SessionGot(Taken(d)) == SessionGot(d) + [d.pc.session.wire[0]]
  {
    hide Chain, SwitchInv, RecordsInv, PhaseGot, SessionGot;
    var s := d.pc.session;
    TakenGot(d);
    ReceivedMore(d, Taken(d), D.Got(s.h, s.wire[0]));
  }

  lemma ReceiveKeepsRounds(heap: seq<Exec>, d: D.Drain)
    requires GotInv(heap, d) && EndInv(d) && RoundsInv(d) && d.pc.Attached? && d.pc.session.wire != []
    ensures RoundsInv(D.Received(d))
  {
    TakenKeeps(d);
    hide Chain, GotInv, EndInv, RecordsInv, ScriptOf, H.Follow;
    if d.pc.session.wire[0].payload.TerminalResult? {
      TerminalKeepsRounds(heap, d);
    } else {
      hide PhaseInv, SwitchInv;
      assert D.Received(d) == Taken(d);
    }
  }

  lemma TerminalRoundFacts(heap: seq<Exec>, d: D.Drain)
    requires GotInv(heap, d) && EndInv(d) && d.pc.Attached? && d.pc.session.wire != [] && PhaseInv(Taken(d))
    requires d.pc.session.mark <= |d.got| && SessionGot(Taken(d)) == SessionGot(d) + [d.pc.session.wire[0]]
    requires d.pc.session.wire[0].payload.TerminalResult?
    ensures Taken(d).split <= Taken(d).pc.session.mark <= |Taken(d).got|
    ensures var (t, p) := (Taken(d), d.pc.session.wire[0].payload);
      var r := StreamRound(t, false, false);
      && TurnOfRound(r) == H.Return(H.Followed(Some(H.Terminal(p.exitCode, p.message)), t.cursor, SessionGot(t)))
      && Within(t.from, D.EventsOf(t.got), r)
      && D.EventsOf(t.got[t.split..]) == PhaseGot(t) + SessionGot(t)
      && Chain(t.rounds, t.from + t.split, r.cursor, PhaseGot(t))
  {
    hide Chain, GotInv, EndInv, H.Processed, H.CursorAfter, TurnOfRound, Within, D.EventsOf;
    SessionFacts(heap, d);
    SessionWithin(Taken(d), false, false);
    PhaseSplits(Taken(d));
    hide SessionGot, PhaseGot;
    TerminalTurn(d.pc.session.openedAt, SessionGot(d), d.pc.session.wire[0]);
  }

  lemma ReceivedTerminal(d: D.Drain)
    requires d.pc.Attached? && d.pc.session.wire != [] && d.pc.session.mark <= |d.got|
    requires d.pc.session.wire[0].payload.TerminalResult?
    ensures var (t, p) := (Taken(d), d.pc.session.wire[0].payload);
      D.Received(d) == t.(rounds := t.rounds + [StreamRound(t, false, false)],
                          pc := D.Returned(D.Terminal(p.exitCode, p.message)))
  {
    StreamRecordedIs(Taken(d), false, false);
  }

  /** The terminal ends the round, and with it the drain. */
  lemma TerminalKeepsRounds(heap: seq<Exec>, d: D.Drain)
    requires GotInv(heap, d) && EndInv(d) && RoundsInv(d) && d.pc.Attached? && d.pc.session.wire != []
    requires RoundsInv(Taken(d)) && SessionGot(Taken(d)) == SessionGot(d) + [d.pc.session.wire[0]]
    requires d.pc.session.wire[0].payload.TerminalResult?
    ensures RoundsInv(D.Received(d))
  {
    hide Chain, GotInv, EndInv, TurnOfRound, Within, RecordsInv, PhaseGot, SessionGot, ScriptOf, H.Follow;
    TerminalRoundFacts(heap, d);
    ReceivedTerminal(d);
    var t, d', r := Taken(d), D.Received(d), StreamRound(Taken(d), false, false);
    hide D.Received, D.EventsOf, PhaseInv, SwitchInv, StreamRound;
    RecordsMore(t, d', r);
    SwitchSame(t, d');
    PhaseEnds(d');
    RoundReturns(t, d', r, PhaseGot(t), d'.pc.how);
  }

  lemma StreamStepKeepsRounds(r: Reg, d: D.Drain, x: D.StreamAct)
    requires RoundsInv(d) && D.DrainEnabled(r, d, D.StreamStep(x))
    ensures RoundsInv(D.DrainApply(r, d, D.StreamStep(x)))
  {
    hide Chain, SwitchInv, RecordsInv;
    SameSwitch(d, D.DrainApply(r, d, D.StreamStep(x)));
  }

  lemma ContextKeepsRounds(r: Reg, d: D.Drain, a: D.DrainAct)
    requires RoundsInv(d) && D.DrainEnabled(r, d, a) && (a.StopContext? || a.Deadline?)
    ensures RoundsInv(D.DrainApply(r, d, a))
  {
    hide Chain, RecordsInv, ScriptOf, H.Follow;
    var d' := D.DrainApply(r, d, a);
    assert PhaseGot(d') == PhaseGot(d);
    SameSwitch(d, d');
  }

  lemma DrainActKeepsRounds(r: Reg, d: D.Drain, a: D.DrainAct)
    requires DrainInv(r.heap, d) && RoundsInv(d) && D.DrainEnabled(r, d, a)
    ensures RoundsInv(D.DrainApply(r, d, a))
  {
    hide AnchorInv, SessionInv, GotInv, EndInv, RoundsInv;
    match a {
      case StopContext(_) => ContextKeepsRounds(r, d, a);
      case Deadline => ContextKeepsRounds(r, d, a);
      case CheckContext => CheckKeeps(r, d);
      case OpenSucceeds => OpenKeepsRounds(r, d, a);
      case OpenFindsNothing => OpenKeepsRounds(r, d, a);
      case OpenFails => OpenKeepsRounds(r, d, a);
      case StreamStep(x) => StreamStepKeepsRounds(r, d, x);
      case Receive => ReceiveKeepsRounds(r.heap, d);
      case StreamBreaks => BreakKeeps(r, d);
      case IdleFires => IdleKeeps(r, d);
    }
  }

  lemma NewDrainHasNoRounds(id: string, from: nat, anchor: Option<nat>)
    ensures RoundsInv(D.NewDrain(id, from, anchor))
  {
  }

  lemma {:induction false} RoundsReachable(run: seq<D.Sys>, acts: seq<D.Act>, n: nat, k: nat)
    requires D.IsRun(run, acts) && n < |run| && k < |run[n].drains|
    ensures RoundsInv(run[n].drains[k])
  {
    hide RoundsInv, D.DrainApply, D.DrainEnabled;
    if n > 0 {
      var s, a := run[n - 1], acts[n - 1];
      assert D.Enabled(s, a) && run[n - 1 + 1] == D.Apply(s, a);
      if k < |s.drains| {
        RoundsReachable(run, acts, n - 1, k);
        if a.DrainStep? && a.n == k {
          DrainHolds(run, acts, n - 1, k);
          hide D.IsRun, DrainInv;
          DrainActKeepsRounds(s.guest.reg, s.drains[k], a.drain);
        }
      } else {
        hide D.IsRun;
        NewDrainHasNoRounds(run[n].drains[k].id, run[n].drains[k].from, run[n].drains[k].anchor);
      }
    }
  }

  // ----- what it comes to -------------------------------------------------------------------

  function CauseOf(stop: Option<D.Stop>): Option<H.Cause> {
    match stop
    case None => None
    case Some(PlainStop) => Some(H.Canceled)
    case Some(CustomStop) => Some(H.Custom)
  }

  /** Both phases of a drain as the host's loops would have met them. */
  function JobScriptOf(d: D.Drain): H.JobScript {
    H.JobScript(ScriptOf(if d.phase == D.Following then d.rounds else d.before), CauseOf(d.stop), ScriptOf(d.rounds))
  }

  lemma PieceAt(log: seq<Payload>, from: nat, got: seq<Event>, j: nat)
    requires H.IsPieceOf(log, from, got) && j < |got|
    ensures from + j < |log| && got[j].sequence == from + 1 + j
    ensures Delivers(got[j].payload, log[from + j])
  {
  }

  lemma SliceOfPiece(log: seq<Payload>, from: nat, got: seq<Event>, a: nat, b: nat)
    requires H.IsPieceOf(log, from, got) && a <= b <= |got|
    ensures H.IsPieceOf(log, from + a, got[a..b])
  {
    var events := got[a..b];
    if events != [] { PieceAt(log, from, got, b - 1); }
    forall i | 0 <= i < |events|
      ensures events[i] == got[a + i] && events[i].sequence == from + a + 1 + i
      ensures Delivers(events[i].payload, log[from + a + i])
    {
      PieceAt(log, from, got, a + i);
    }
  }

  lemma AttemptIsTruthful(log: seq<Payload>, from: nat, got: seq<Event>, rounds: seq<D.Round>, t: nat, c: nat)
    requires H.IsPieceOf(log, from, got) && forall i :: 0 <= i < |rounds| ==> Within(from, got, rounds[i])
    requires ScriptOf(rounds).attempt(t, c).Stream?
    ensures H.IsPieceOf(log, c, ScriptOf(rounds).attempt(t, c).events)
  {
    hide H.IsPieceOf;
    var r := rounds[t];
    assert Within(from, got, r) && r.cursor == c;
    SliceOfPiece(log, from, got, c - from, c - from + |r.attempt.events|);
  }

  lemma ScriptIsTruthful(log: seq<Payload>, from: nat, got: seq<Event>, rounds: seq<D.Round>)
    requires H.IsPieceOf(log, from, got) && forall t :: 0 <= t < |rounds| ==> Within(from, got, rounds[t])
    ensures H.Truthful(log, ScriptOf(rounds))
  {
    hide H.IsPieceOf, ScriptOf, Within;
    forall t: nat, c: nat | ScriptOf(rounds).attempt(t, c).Stream?
      ensures H.IsPieceOf(log, c, ScriptOf(rounds).attempt(t, c).events)
    {
      AttemptIsTruthful(log, from, got, rounds, t, c);
    }
  }

  lemma ReceivedIsPiece(run: seq<D.Sys>, acts: seq<D.Act>, n: nat, k: nat, h: nat)
    requires D.IsRun(run, acts) && n < |run| && k < |run[n].drains|
    requires h < |run[n].guest.reg.heap| && FromOnly(run[n].drains[k], h)
    ensures H.IsPieceOf(run[n].guest.reg.heap[h].history, run[n].drains[k].from, D.EventsOf(run[n].drains[k].got))
  {
    ProcessedExactlyOnce(run, acts, n, k);
    hide D.IsRun;
    var d := run[n].drains[k];
    if d.got != [] {
      var last := |d.got| - 1;
      assert d.got[last].h == h && d.from + last < |run[n].guest.reg.heap[d.got[last].h].history|;
    }
  }

  lemma DrainedAsRecorded(d: D.Drain)
    requires RoundsInv(d) && d.pc.Returned?
    ensures H.Drained(JobScriptOf(d), d.from) == H.Followed(EndOf(d.pc.how), d.cursor, D.EventsOf(d.got))
    ensures H.TearsDown(JobScriptOf(d), d.from) <==> d.phase == D.TearingDown
  {
    hide ScriptOf, H.Follow, RecordsInv;
    if d.phase == D.Following {
      assert d.got[0..|d.got|] == d.got;
    } else {
      assert d.got[d.split..|d.got|] == d.got[d.split..];
      assert d.got == d.got[..d.split] + d.got[d.split..];
      assert D.EventsOf(d.got) == D.EventsOf(d.got[..d.split]) + D.EventsOf(d.got[d.split..]);
    }
  }

  /**
   A drain that returned did what the host's loops compute on the rounds it met: the same end, the same
   cursor, the same events and the same phases. If it received from one execution only, as it does for an
   id accepted once, the streams of those rounds tell the truth about that execution's log.
   */
  lemma ReturnedDrainRanTheLoops(run: seq<D.Sys>, acts: seq<D.Act>, n: nat, k: nat, h: nat)
    requires D.IsRun(run, acts) && n < |run| && k < |run[n].drains| && run[n].drains[k].pc.Returned?
    requires h < |run[n].guest.reg.heap| && FromOnly(run[n].drains[k], h)
    ensures var (d, log) := (run[n].drains[k], run[n].guest.reg.heap[h].history);
      var js := JobScriptOf(d);
      && H.Drained(js, d.from) == H.Followed(EndOf(d.pc.how), d.cursor, D.EventsOf(d.got))
      && (H.TearsDown(js, d.from) <==> d.phase == D.TearingDown)
      && H.Truthful(log, js.following) && H.Truthful(log, js.teardown)
  {
    RoundsReachable(run, acts, n, k);
    ReceivedIsPiece(run, acts, n, k, h);
    var (d, log) := (run[n].drains[k], run[n].guest.reg.heap[h].history);
    hide D.IsRun, H.IsPieceOf, Within;
    DrainedAsRecorded(d);
    ScriptIsTruthful(log, d.from, D.EventsOf(d.got), d.rounds);
    ScriptIsTruthful(log, d.from, D.EventsOf(d.got), d.before);
    hide PhaseInv, SwitchInv, ScriptOf, H.Drained, H.TearsDown, H.Truthful;
  }
}
