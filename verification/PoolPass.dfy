/**
 What exactly one uninterrupted reap pass does: per unmarked VM it acts on the first binding that
 gives a reason and on no other.
 */
module PoolPass {
  import opened Wrappers
  import opened PoolSections
  import opened PoolRuns
  import opened RunnerPool

  /** The slot as a pass collects it. */
  function CandidateAt(p: PoolData, i: nat, k: nat, now: int): BusyCandidate
    requires i < |p.states| && p.states[i].vm.Some? && k < |p.states[i].slots|
  {
    var slot := p.states[i].slots[k];
    BusyCandidate(i, k, |p.states[i].slots|, p.states[i].vm.value, slot.boundAt, slot.jobID, slot.runID, now, slot.bind)
  }

  /** Slot k of worker i is bound and gives a pass a reason to reap it. */
  predicate OverdueAt(p: PoolData, i: nat, k: nat, now: int, hasProber: bool, probe: VmName -> Probe) {
    && i < |p.states| && p.states[i].vm.Some? && k < |p.states[i].slots| && Bound(p.states[i].slots[k])
    && Reaps(CandidateAt(p, i, k, now), p.options, hasProber, probe)
  }

  /** Slot k of worker i has been bound for MaxBind, or for PickupTimeout with its VM's probe not listing it. */
  predicate MayBeReaped(p: PoolData, i: nat, k: nat, now: int, hasProber: bool, probe: VmName -> Probe) {
    && i < |p.states| && p.states[i].vm.Some? && k < |p.states[i].slots| && Bound(p.states[i].slots[k])
    && var (age, o) := (now - p.states[i].slots[k].boundAt, p.options);
       || (o.maxBind > 0 && age >= o.maxBind)
       || (hasProber && o.pickupTimeout > 0 && age >= o.pickupTimeout
           && probe(p.states[i].vm.value).RunningSlots? && k !in probe(p.states[i].vm.value).running)
  }

  lemma OverdueIsJustified(p: PoolData, i: nat, now: int, hasProber: bool, probe: VmName -> Probe)
    ensures forall k: nat :: OverdueAt(p, i, k, now, hasProber, probe) <==> MayBeReaped(p, i, k, now, hasProber, probe)
  {
  }

  /** The first overdue slot among the first n of worker i. */
  function FirstOverdue(p: PoolData, i: nat, n: nat, now: int, hasProber: bool, probe: VmName -> Probe): (r: Option<nat>)
    ensures r.Some? ==> r.value < n && OverdueAt(p, i, r.value, now, hasProber, probe)
    ensures r.Some? ==> forall k :: 0 <= k < r.value ==> !OverdueAt(p, i, k, now, hasProber, probe)
    ensures r.None? ==> forall k :: 0 <= k < n ==> !OverdueAt(p, i, k, now, hasProber, probe)
  {
    if n == 0 then None
    else
      var r := FirstOverdue(p, i, n - 1, now, hasProber, probe);
      if r.Some? then r else if OverdueAt(p, i, n - 1, now, hasProber, probe) then Some(n - 1) else None
  }

  /** The slot of worker i that a pass acts on. */
  function Chosen(p: PoolData, i: nat, now: int, hasProber: bool, probe: VmName -> Probe): (r: Option<nat>)
    requires i < |p.states|
  {
    if p.states[i].vm.None? || p.states[i].recycle then None
    else FirstOverdue(p, i, |p.states[i].slots|, now, hasProber, probe)
  }

  /** A reaped slot keeps its job under a cancelled context; an adopted one without a context is freed. */
  function ReapedSlot(slot: SlotState): SlotState {
    if slot.adopted && !slot.jobCancel then EmptySlot() else slot.(jobCancel := false, reapWarnedAt := slot.boundAt)
  }

  function ReapedWorker(w: WorkerState, k: nat): WorkerState
    requires k < |w.slots|
  {
    w.(recycle := true, slots := w.slots[k := ReapedSlot(w.slots[k])])
  }

  /** The pool after the pass acted on slot k of worker i. */
  function ReapedAt(p: PoolData, i: nat, k: nat): PoolData
    requires i < |p.states| && k < |p.states[i].slots|
  {
    var slot := p.states[i].slots[k];
    p.(states := p.states[i := ReapedWorker(p.states[i], k)], wakes := p.wakes + 1,
       causes := if slot.jobCancel then CancelContext(p.causes, slot.bind, RecycleCause) else p.causes)
  }

  lemma ActsOnChosen(p: PoolData, i: nat, k: nat, now: int)
    requires i < |p.states| && p.states[i].vm.Some? && k < |p.states[i].slots| && Bound(p.states[i].slots[k])
    requires !p.states[i].recycle && !Warned(p.states[i].slots[k])
    ensures WarnAndRequest(p, CandidateAt(p, i, k, now)) == ReapedAt(p, i, k)
  {
    var c := CandidateAt(p, i, k, now);
    var w, slot := p.states[i], p.states[i].slots[k];
    var warned := slot.(reapWarnedAt := c.boundAt);
    var q := WarnSlot(p, c);
    assert q == p.(states := p.states[i := w.(slots := w.slots[k := warned])]);
    hide WarnSlot;
    assert q.states[i].slots[k := ReapedSlot(slot)] == w.slots[k := ReapedSlot(slot)];
    assert q.states[i := ReapedWorker(w, k)] == p.states[i := ReapedWorker(w, k)];
  }

  lemma MarkedIsLeftAlone(p: PoolData, c: BusyCandidate)
    requires c.index < |p.states| && p.states[c.index].recycle
    ensures WarnAndRequest(p, c) == p
  {
  }

  /** No warned binding of worker i waits for its request. */
  predicate WorkerSettled(w: WorkerState) {
    w.vm.Some? ==> forall k :: 0 <= k < |w.slots| && Warned(w.slots[k]) ==> w.recycle
  }

  /** The candidates of worker i up to slot n, seen from the pass that goes through them. */
  lemma NextSlot(was: PoolData, p: PoolData, i: nat, n: nat, now: int, hasProber: bool, probe: VmName -> Probe)
    requires i < |was.states| && was.states[i].vm.Some? && n < |was.states[i].slots|
    ensures var q := ReapEach(p, SlotCandidates(was, i, n, now), hasProber, probe);
      ReapEach(p, SlotCandidates(was, i, n + 1, now), hasProber, probe)
        == if Bound(was.states[i].slots[n]) && Reaps(CandidateAt(was, i, n, now), p.options, hasProber, probe)
           then WarnAndRequest(q, CandidateAt(was, i, n, now)) else q
  {
    var before := SlotCandidates(was, i, n, now);
    if Bound(was.states[i].slots[n]) {
      var c := CandidateAt(was, i, n, now);
      assert SlotCandidates(was, i, n + 1, now) == before + [c] && (before + [c])[..|before|] == before;
      hide Reaps, WarnAndRequest;
    }
  }

  lemma NoSlotsYet(was: PoolData, p: PoolData, i: nat, now: int, hasProber: bool, probe: VmName -> Probe)
    requires i < |was.states| && was.states[i].vm.Some?
    ensures ReapEach(p, SlotCandidates(was, i, 0, now), hasProber, probe) == p
  {
  }

  lemma ReapedIsMarked(p: PoolData, i: nat, k: nat)
    requires i < |p.states| && k < |p.states[i].slots|
    ensures var q := ReapedAt(p, i, k); |q.states| == |p.states| && q.states[i].recycle
  {
  }

  /** What the pass makes of one worker's candidates, from a pool that has that worker unchanged. */
  lemma {:induction false} WorkerPart(was: PoolData, p: PoolData, i: nat, n: nat, now: int, hasProber: bool, probe: VmName -> Probe)
    requires i < |was.states| == |p.states| && p.states[i] == was.states[i] && p.options == was.options
    requires was.states[i].vm.Some? && n <= |was.states[i].slots| && WorkerSettled(was.states[i])
    ensures var first := FirstOverdue(was, i, n, now, hasProber, probe);
      ReapEach(p, SlotCandidates(was, i, n, now), hasProber, probe)
        == if was.states[i].recycle || first.None? then p else ReapedAt(p, i, first.value)
  {
    hide SlotCandidates, WarnAndRequest, ReapEach, Reaps, ReapedAt;
    if n == 0 {
      NoSlotsYet(was, p, i, now, hasProber, probe);
    } else {
      WorkerPart(was, p, i, n - 1, now, hasProber, probe);
      NextSlot(was, p, i, n - 1, now, hasProber, probe);
      var first := FirstOverdue(was, i, n - 1, now, hasProber, probe);
      var c := CandidateAt(was, i, n - 1, now);
      if was.states[i].recycle {
        MarkedIsLeftAlone(p, c);
      } else if first.Some? {
        ReapedIsMarked(p, i, first.value);
        MarkedIsLeftAlone(ReapedAt(p, i, first.value), c);
      } else if Bound(was.states[i].slots[n - 1]) {
        assert CandidateAt(p, i, n - 1, now) == c;
        ActsOnChosen(p, i, n - 1, now);
      }
    }
  }

  lemma {:induction false} ReapEachConcat(p: PoolData, a: seq<BusyCandidate>, b: seq<BusyCandidate>, hasProber: bool, probe: VmName -> Probe)
    ensures ReapEach(p, a + b, hasProber, probe) == ReapEach(ReapEach(p, a, hasProber, probe), b, hasProber, probe)
  {
    if b == [] {
      assert a + b == a;
    } else {
      var last := |b| - 1;
      ReapEachConcat(p, a, b[..last], hasProber, probe);
      assert (a + b)[..|a + b| - 1] == a + b[..last];
    }
  }

  /** The pool after the pass went through the first n workers. */
  function PassUpTo(p: PoolData, n: nat, now: int, hasProber: bool, probe: VmName -> Probe): PoolData
    requires n <= |p.states|
  {
    ReapEach(p, BusyCandidates(p, n, now), hasProber, probe)
  }

  lemma NextWorker(p: PoolData, n: nat, now: int, hasProber: bool, probe: VmName -> Probe)
    requires n < |p.states| && WorkerSettled(p.states[n])
    requires var q := PassUpTo(p, n, now, hasProber, probe); |q.states| == |p.states| && q.states[n] == p.states[n]
    ensures var q := PassUpTo(p, n, now, hasProber, probe);
      var chosen := Chosen(p, n, now, hasProber, probe);
      PassUpTo(p, n + 1, now, hasProber, probe) == if chosen.Some? then ReapedAt(q, n, chosen.value) else q
  {
    var before := BusyCandidates(p, n, now);
    var q := PassUpTo(p, n, now, hasProber, probe);
    if p.states[n].vm.Some? {
      var more := SlotCandidates(p, n, |p.states[n].slots|, now);
      ReapEachConcat(p, before, more, hasProber, probe);
      WorkerPart(p, q, n, |p.states[n].slots|, now, hasProber, probe);
    } else {
      assert before + [] == before;
    }
  }

  /** The context of slot k of worker i is the one a pass cancels there. */
  predicate CancelsAt(p: PoolData, i: nat, k: nat, now: int, hasProber: bool, probe: VmName -> Probe) {
    && i < |p.states| && Chosen(p, i, now, hasProber, probe) == Some(k)
    && p.states[i].slots[k].jobCancel
  }

  ghost predicate CancelsAmong(p: PoolData, n: nat, bind: nat, now: int, hasProber: bool, probe: VmName -> Probe) {
    exists i: nat, k: nat :: i < n && CancelsAt(p, i, k, now, hasProber, probe) && p.states[i].slots[k].bind == bind
  }

  /** The workers after the pass went through the first n of them. */
  ghost predicate WorkersPassed(p: PoolData, q: PoolData, n: nat, now: int, hasProber: bool, probe: VmName -> Probe) {
    && |q.states| == |p.states| && n <= |p.states|
    && (forall i :: n <= i < |p.states| ==> q.states[i] == p.states[i])
    && (forall i :: 0 <= i < n ==>
          q.states[i] == (var chosen := Chosen(p, i, now, hasProber, probe);
                          if chosen.Some? then ReapedWorker(p.states[i], chosen.value) else p.states[i]))
  }

  /** The contexts cancelled by then. */
  ghost predicate CausesPassed(p: PoolData, q: PoolData, n: nat, now: int, hasProber: bool, probe: VmName -> Probe) {
    && (forall b :: b in q.causes <==> b in p.causes || CancelsAmong(p, n, b, now, hasProber, probe))
    && (forall b :: b in q.causes ==> q.causes[b] == if b in p.causes then p.causes[b] else RecycleCause)
  }

  ghost predicate PassedTo(p: PoolData, q: PoolData, n: nat, now: int, hasProber: bool, probe: VmName -> Probe) {
    WorkersPassed(p, q, n, now, hasProber, probe) && CausesPassed(p, q, n, now, hasProber, probe)
  }

  lemma WorkersNext(p: PoolData, q: PoolData, n: nat, now: int, hasProber: bool, probe: VmName -> Probe)
    requires n < |p.states| && WorkersPassed(p, q, n, now, hasProber, probe)
    ensures var chosen := Chosen(p, n, now, hasProber, probe);
      WorkersPassed(p, if chosen.Some? then ReapedAt(q, n, chosen.value) else q, n + 1, now, hasProber, probe)
  {
    hide FirstOverdue, ReapedWorker, CancelContext;
  }

  lemma CancelsNext(p: PoolData, n: nat, b: nat, now: int, hasProber: bool, probe: VmName -> Probe)
    requires n < |p.states|
    ensures var chosen := Chosen(p, n, now, hasProber, probe);
      CancelsAmong(p, n + 1, b, now, hasProber, probe) <==>
        CancelsAmong(p, n, b, now, hasProber, probe)
        || (chosen.Some? && p.states[n].slots[chosen.value].jobCancel && p.states[n].slots[chosen.value].bind == b)
  {
    hide FirstOverdue;
    var chosen := Chosen(p, n, now, hasProber, probe);
    if chosen.Some? && p.states[n].slots[chosen.value].jobCancel && p.states[n].slots[chosen.value].bind == b {
      assert CancelsAt(p, n, chosen.value, now, hasProber, probe);
    }
  }

  lemma CausesNext(p: PoolData, q: PoolData, n: nat, now: int, hasProber: bool, probe: VmName -> Probe)
    requires n < |p.states| && n < |q.states| && q.states[n] == p.states[n]
    requires CausesPassed(p, q, n, now, hasProber, probe)
    ensures var chosen := Chosen(p, n, now, hasProber, probe);
      CausesPassed(p, if chosen.Some? then ReapedAt(q, n, chosen.value) else q, n + 1, now, hasProber, probe)
  {
    hide FirstOverdue, ReapedWorker, ReapedSlot;
    forall b: nat
      ensures var chosen := Chosen(p, n, now, hasProber, probe);
        CancelsAmong(p, n + 1, b, now, hasProber, probe) <==>
          CancelsAmong(p, n, b, now, hasProber, probe)
          || (chosen.Some? && p.states[n].slots[chosen.value].jobCancel && p.states[n].slots[chosen.value].bind == b)
    {
      CancelsNext(p, n, b, now, hasProber, probe);
    }
    hide CancelsAmong, Chosen;
  }

  lemma NothingPassed(p: PoolData, now: int, hasProber: bool, probe: VmName -> Probe)
    ensures PassedTo(p, PassUpTo(p, 0, now, hasProber, probe), 0, now, hasProber, probe)
  {
  }

  lemma PassedNext(p: PoolData, q: PoolData, n: nat, now: int, hasProber: bool, probe: VmName -> Probe)
    requires n < |p.states| && PassedTo(p, q, n, now, hasProber, probe)
    ensures var chosen := Chosen(p, n, now, hasProber, probe);
      PassedTo(p, if chosen.Some? then ReapedAt(q, n, chosen.value) else q, n + 1, now, hasProber, probe)
  {
    hide Chosen, ReapedAt, CausesPassed;
    CausesNext(p, q, n, now, hasProber, probe);
    WorkersNext(p, q, n, now, hasProber, probe);
  }

  lemma {:induction false} PassUpToExact(p: PoolData, n: nat, now: int, hasProber: bool, probe: VmName -> Probe)
    requires n <= |p.states| && forall i :: 0 <= i < |p.states| ==> WorkerSettled(p.states[i])
    ensures PassedTo(p, PassUpTo(p, n, now, hasProber, probe), n, now, hasProber, probe)
  {
    hide PassUpTo, Chosen, ReapedAt, CausesPassed, WorkerSettled;
    if n == 0 {
      NothingPassed(p, now, hasProber, probe);
    } else {
      PassUpToExact(p, n - 1, now, hasProber, probe);
      var q := PassUpTo(p, n - 1, now, hasProber, probe);
      NextWorker(p, n - 1, now, hasProber, probe);
      PassedNext(p, q, n - 1, now, hasProber, probe);
      hide WorkersPassed;
    }
  }

  /** An uninterrupted pass changes a worker exactly by reaping the slot it chooses there. */
  lemma PassIsExact(p: PoolData, now: int, hasProber: bool, probe: VmName -> Probe)
    requires WarningsSettled(p)
    ensures PassedTo(p, ReapPass(p, now, hasProber, probe), |p.states|, now, hasProber, probe)
  {
    PassUpToExact(p, |p.states|, now, hasProber, probe);
  }

  /** A binding whose slot the pass did not choose is not among those it cancels. */
  lemma UnchosenIsSpared(p: PoolData, i: nat, k: nat, now: int, hasProber: bool, probe: VmName -> Probe)
    requires BindsDistinct(p) && BusyAt(p, i, k) && Chosen(p, i, now, hasProber, probe) != Some(k)
    ensures !CancelsAmong(p, |p.states|, p.states[i].slots[k].bind, now, hasProber, probe)
  {
    forall j: nat, m: nat | j < |p.states| && CancelsAt(p, j, m, now, hasProber, probe)
      ensures p.states[j].slots[m].bind != p.states[i].slots[k].bind
    {
      assert BusyAt(p, j, m);
    }
  }

  /**
   Which contexts an uninterrupted pass cancels: a bound slot's, if that was not cancelled before, is
   cancelled for a recycle if and only if its VM is unmarked and the slot is the first of that VM that has
   been bound for MaxBind, or for PickupTimeout without running.
   */
  lemma CancelledIffFirstOverdue(p: PoolData, now: int, hasProber: bool, probe: VmName -> Probe, i: nat, k: nat)
    requires WarningsSettled(p) && BindsDistinct(p)
    requires BusyAt(p, i, k) && p.states[i].vm.Some? && Bound(p.states[i].slots[k]) && p.states[i].slots[k].jobCancel
    requires p.states[i].slots[k].bind !in p.causes
    ensures var q := ReapPass(p, now, hasProber, probe);
      var bind := p.states[i].slots[k].bind;
      bind in q.causes && q.causes[bind] == RecycleCause <==>
        && !p.states[i].recycle && MayBeReaped(p, i, k, now, hasProber, probe)
        && forall m :: 0 <= m < k ==> !MayBeReaped(p, i, m, now, hasProber, probe)
  {
    PassIsExact(p, now, hasProber, probe);
    OverdueIsJustified(p, i, now, hasProber, probe);
    hide MayBeReaped, ReapPass, BindsDistinct, WarningsSettled;
    if Chosen(p, i, now, hasProber, probe) == Some(k) {
      assert CancelsAt(p, i, k, now, hasProber, probe);
    } else {
      UnchosenIsSpared(p, i, k, now, hasProber, probe);
    }
  }

  /** Every VM with an overdue slot is marked after the pass, and only those are newly marked. */
  lemma MarkedIffOverdue(p: PoolData, now: int, hasProber: bool, probe: VmName -> Probe, i: nat)
    requires WarningsSettled(p) && i < |p.states|
    ensures var q := ReapPass(p, now, hasProber, probe);
      && |q.states| == |p.states| && q.states[i].vm == p.states[i].vm
      && (q.states[i].recycle <==> p.states[i].recycle || exists k: nat :: MayBeReaped(p, i, k, now, hasProber, probe))
  {
    PassIsExact(p, now, hasProber, probe);
    OverdueIsJustified(p, i, now, hasProber, probe);
    hide MayBeReaped;
    var chosen := Chosen(p, i, now, hasProber, probe);
  }

  /**
   So MaxBind is not an absolute ceiling for a slot: of two overdue slots on one VM a pass cancels at
   most the first, and every later pass finds the VM marked and leaves the second as it is.
   */
  lemma SecondOverdueSlotKeepsItsJob(p: PoolData, now: int, hasProber: bool, probe: VmName -> Probe,
                                     i: nat, j: nat, k: nat, later: int, probe': VmName -> Probe)
    requires WarningsSettled(p) && BindsDistinct(p) && j < k
    requires OverdueAt(p, i, j, now, hasProber, probe) && OverdueAt(p, i, k, now, hasProber, probe)
    requires p.states[i].slots[k].bind !in p.causes
    ensures var once := ReapPass(p, now, hasProber, probe);
      var twice := ReapPass(once, later, hasProber, probe');
      && |once.states| == |twice.states| == |p.states| && once.states[i].recycle
      && twice.states[i] == once.states[i]
      && |once.states[i].slots| == |p.states[i].slots| && once.states[i].slots[k] == p.states[i].slots[k]
      && p.states[i].slots[k].bind !in once.causes && p.states[i].slots[k].bind !in twice.causes
  {
    PassIsExact(p, now, hasProber, probe);
    assert BusyAt(p, i, k);
    UnchosenIsSpared(p, i, k, now, hasProber, probe);
    PassSettles(p, now, hasProber, probe);
    PassKeepsBindsDistinct(p, now, hasProber, probe);
    var once := ReapPass(p, now, hasProber, probe);
    PassIsExact(once, later, hasProber, probe');
    UnchosenIsSpared(once, i, k, later, hasProber, probe');
    hide ReapPass, BindsDistinct, WarningsSettled, CancelsAmong;
  }

  lemma PassKeepsBindsDistinct(p: PoolData, now: int, hasProber: bool, probe: VmName -> Probe)
    requires WarningsSettled(p) && BindsDistinct(p)
    ensures BindsDistinct(ReapPass(p, now, hasProber, probe))
  {
    PassIsExact(p, now, hasProber, probe);
    var q := ReapPass(p, now, hasProber, probe);
    hide ReapPass, CausesPassed, WarningsSettled, FirstOverdue;
    assert forall i: nat, k: nat :: BusyAt(q, i, k) ==>
             BusyAt(p, i, k) && q.states[i].slots[k].bind == p.states[i].slots[k].bind;
  }

  /** A pass leaves no warned binding on an unmarked VM. */
  lemma PassSettles(p: PoolData, now: int, hasProber: bool, probe: VmName -> Probe)
    requires WarningsSettled(p)
    ensures WarningsSettled(ReapPass(p, now, hasProber, probe))
  {
    PassIsExact(p, now, hasProber, probe);
  }
}
