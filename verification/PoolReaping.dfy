/**
 Reap safety: whatever is rebound between a pass's snapshot and its actions, a recycle cancel
 only ever reaches the binding the pass looked at, and only for a reason it had.
 */
module PoolReaping {
  import opened Wrappers
  import opened PoolSections
  import opened PoolRuns
  import opened PoolWorkers
  import opened PoolEffects
  import opened PoolSafety
  import opened RunnerPool

  /** The binding at (i, k) is still the one it was; only a warning may have marked it. */
  predicate KeptAt(p: PoolData, q: PoolData, i: nat, k: nat, warns: bool)
    requires BusyAt(q, i, k)
  {
    && BusyAt(p, i, k) && p.states[i].vm == q.states[i].vm
    && var was, after := p.states[i].slots[k], q.states[i].slots[k];
       && after.bind == was.bind && after.boundAt == was.boundAt
       && after.jobID == was.jobID && after.runID == was.runID
       && (after.reapWarnedAt == was.reapWarnedAt || (warns && after.reapWarnedAt == after.boundAt))
  }

  /** The binding at (i, k) was made by the act from p to q. */
  predicate NewAt(p: PoolData, now: int, q: PoolData, i: nat, k: nat)
    requires BusyAt(q, i, k)
  {
    && q.nextBind == p.nextBind + 1
    && q.states[i].slots[k].bind == p.nextBind && q.states[i].slots[k].boundAt == now
    && q.states[i].slots[k].reapWarnedAt == 0
  }

  /** How bindings evolve in one act: each is kept, or it is the one new binding. */
  ghost predicate BindingsEvolve(p: PoolData, now: int, q: PoolData, warns: bool) {
    && p.nextBind <= q.nextBind
    && (forall i: nat, k: nat :: BusyAt(q, i, k) ==>
          KeptAt(p, q, i, k, warns) || NewAt(p, now, q, i, k))
    && (forall i: nat, k: nat, j: nat, m: nat :: BusyAt(q, i, k) && BusyAt(q, j, m) ==>
            (NewAt(p, now, q, i, k) && NewAt(p, now, q, j, m) ==> i == j && k == m))
  }

  /** The reap candidate's place holds the candidate's own binding or one made after the snapshot. */
  predicate CandidateInv(s: Sys, c: BusyCandidate) {
    && c.now <= s.now && c.vm in s.used && c.bind < s.pool.nextBind
    && (Located(s.pool, c) && s.pool.states[c.index].slots[c.slotIndex].busy ==>
          var slot := s.pool.states[c.index].slots[c.slotIndex];
          slot.bind == c.bind || slot.boundAt >= c.now)
  }

  predicate PassInv(s: Sys, pass: Pass) {
    && (forall n :: 0 <= n < |pass.candidates| ==> CandidateInv(s, pass.candidates[n]))
    && (pass.requesting ==>
          && pass.options.Some? && pass.at < |pass.candidates|
          && ReapJustified(pass.candidates[pass.at], pass.options.value, pass.probes))
  }

  /** Every context cancelled for a recycle has its reason on record. */
  predicate EvidenceInv(s: Sys) {
    && (forall b :: b in s.pool.causes && s.pool.causes[b] == RecycleCause ==> b in s.evidence)
    && (forall b :: b in s.evidence ==>
          && s.evidence[b].c.bind == b
          && ReapJustified(s.evidence[b].c, s.evidence[b].options, s.evidence[b].probes))
  }

  /** A warned binding carries its mark, and no binding was warned twice. */
  ghost predicate WarnedInv(s: Sys) {
    && (forall n :: 0 <= n < |s.warned| ==> s.warned[n] < s.pool.nextBind)
    && (forall m, n :: 0 <= m < n < |s.warned| ==> s.warned[m] != s.warned[n])
    && (forall i: nat, k: nat :: BusyAt(s.pool, i, k) ==>
          (s.pool.states[i].slots[k].bind in s.warned ==>
             s.pool.states[i].slots[k].reapWarnedAt == s.pool.states[i].slots[k].boundAt))
  }

  ghost predicate ReapInv(s: Sys) {
    && BindsFresh(s.pool) && BindsDistinct(s.pool)
    && (forall j :: 0 <= j < |s.passes| ==> PassInv(s, s.passes[j]))
    && EvidenceInv(s) && WarnedInv(s)
  }

  // ----- how bindings evolve, act by act ----------------------------------------------------

  predicate IsWarning(a: Act) {
    a.PassStep? && a.pass.PWarn?
  }

  /** A worker whose slots are all free afterwards adds no binding. */
  lemma ResetEvolves(s: Sys, i: nat, a: WorkerAct)
    requires BindsFresh(s.pool) && WorkerEnabled(s, i, a) && Resets(a)
    ensures BindingsEvolve(s.pool, s.now, WorkerApply(s, i, a).pool, false)
  {
    ResetResult(s, i, a);
  }

  lemma WorkerEvolves(s: Sys, i: nat, a: WorkerAct)
    requires BindsFresh(s.pool) && WorkerEnabled(s, i, a) && !Resets(a)
    ensures BindingsEvolve(s.pool, s.now, WorkerApply(s, i, a).pool, false)
  {
    var s' := WorkerApply(s, i, a);
    if a.WPoll? && JudgeWorker(s.pool, i, s.tasks[i].pc.vm, s.ctxDone).DetachNow? {
      ResetReplaces(s.pool, i, s.pool.states[i].(vm := None, recycle := false, warming := true, idleSince := 0),
                    s.pool.options.jobsPerVM);
    } else {
      assert s'.pool.states == s.pool.states;
    }
  }

  /** Only slot k of worker i changed: freed, kept, or newly bound. */
  lemma OneSlotEvolves(p: PoolData, now: int, q: PoolData, i: nat, k: nat, warns: bool)
    requires BindsFresh(p) && p.nextBind <= q.nextBind
    requires i < |p.states| == |q.states| && forall j :: 0 <= j < |p.states| && j != i ==> q.states[j] == p.states[j]
    requires q.states[i].vm == p.states[i].vm && |q.states[i].slots| == |p.states[i].slots|
    requires forall m :: 0 <= m < |p.states[i].slots| && m != k ==> q.states[i].slots[m] == p.states[i].slots[m]
    requires BusyAt(q, i, k) ==> KeptAt(p, q, i, k, warns) || NewAt(p, now, q, i, k)
    ensures BindingsEvolve(p, now, q, warns)
  {
    forall j: nat, m: nat | BusyAt(q, j, m)
      ensures KeptAt(p, q, j, m, warns) || NewAt(p, now, q, j, m)
      ensures NewAt(p, now, q, j, m) ==> j == i && m == k
    {
      if (j, m) != (i, k) {
        assert BusyAt(p, j, m);
      }
    }
  }

  lemma SlotEvolves(s: Sys, i: nat, k: nat, a: SlotAct)
    requires WorkersInv(s) && BindsFresh(s.pool) && SlotEnabled(s, i, k, a)
    ensures BindingsEvolve(s.pool, s.now, SlotApply(s, i, k, a).pool, false)
  {
    var q := SlotApply(s, i, k, a).pool;
    assert |s.tasks| == |s.pool.states|;
    hide WorkersInv;
    if Ends(a) {
      EndResult(s, i, k, a);
      hide SlotApply;
    }
    OneSlotEvolves(s.pool, s.now, q, i, k, false);
  }

  lemma CancelEvolves(p: PoolData, now: int, i: nat, k: nat, cause: Cause)
    requires BindsFresh(p) && i < |p.states| && k < |p.states[i].slots|
    ensures BindingsEvolve(p, now, CancelSlot(p, i, k, cause), false)
  {
  }

  lemma SameStatesEvolve(p: PoolData, now: int, q: PoolData, warns: bool)
    requires BindsFresh(p) && q.states == p.states && q.nextBind == p.nextBind
    ensures BindingsEvolve(p, now, q, warns)
  {
    assert forall i: nat, k: nat :: BusyAt(q, i, k) ==> BusyAt(p, i, k);
  }

  lemma PassEvolves(s: Sys, j: nat, a: PassAct)
    requires BindsFresh(s.pool) && PassEnabled(s, j, a)
    ensures BindingsEvolve(s.pool, s.now, PassApply(s, j, a).pool, a.PWarn?)
  {
    var s' := PassApply(s, j, a);
    if s'.pool == s.pool {
      SameStatesEvolve(s.pool, s.now, s'.pool, a.PWarn?);
    } else if a.PRequest? {
      var c := s.passes[j].candidates[s.passes[j].at];
      CancelEvolves(s.pool, s.now, c.index, c.slotIndex, RecycleCause);
    }
  }

  lemma ActEvolves(s: Sys, a: Act)
    requires WorkersInv(s) && BindsFresh(s.pool) && Enabled(s, a)
    ensures BindingsEvolve(s.pool, s.now, Apply(s, a).pool, IsWarning(a))
  {
    hide WorkersInv, WorkerApply, SlotApply, PassApply;
    match a {
      case WorkerStep(i, w) => if Resets(w) { ResetEvolves(s, i, w); } else { WorkerEvolves(s, i, w); }
      case SlotStep(i, k, x) => SlotEvolves(s, i, k, x);
      case PassStep(j, p) => PassEvolves(s, j, p);
      case DoCancelRun(jobID) =>
        match FindBusy(s.pool.states, jobID, 0) {
          case None => SameStatesEvolve(s.pool, s.now, Apply(s, a).pool, false);
          case Some((i, k)) => CancelEvolves(s.pool, s.now, i, k, CancelRunCause);
        }
      case DoRequestRecycle(i, vm, err) =>
        assert Apply(s, a).pool.nextBind == s.pool.nextBind;
        assert Apply(s, a).pool.states[i].slots == s.pool.states[i].slots;
      case _ => SameStatesEvolve(s.pool, s.now, Apply(s, a).pool, false);
    }
  }

  // ----- the invariant is kept --------------------------------------------------------------

  lemma BindsKept(p: PoolData, now: int, q: PoolData, warns: bool)
    requires BindsFresh(p) && BindsDistinct(p) && BindingsEvolve(p, now, q, warns)
    ensures BindsFresh(q) && BindsDistinct(q)
  {
    forall i: nat, k: nat | BusyAt(q, i, k)
      ensures q.states[i].slots[k].bind < q.nextBind
    {
      assert KeptAt(p, q, i, k, warns) || NewAt(p, now, q, i, k);
    }
    forall i: nat, k: nat, j: nat, m: nat | BusyAt(q, i, k) && BusyAt(q, j, m) && (i, k) != (j, m)
      ensures q.states[i].slots[k].bind != q.states[j].slots[m].bind
    {
      assert KeptAt(p, q, i, k, warns) || NewAt(p, now, q, i, k);
      assert KeptAt(p, q, j, m, warns) || NewAt(p, now, q, j, m);
    }
  }

  /** A rebinding after the snapshot carries a bind time no earlier than the snapshot. */
  lemma CandidateKept(s: Sys, s': Sys, c: BusyCandidate, warns: bool)
    requires CandidateInv(s, c) && BindingsEvolve(s.pool, s.now, s'.pool, warns)
    requires s.now <= s'.now && s.used <= s'.used
    ensures CandidateInv(s', c)
  {
    if Located(s'.pool, c) && s'.pool.states[c.index].slots[c.slotIndex].busy {
      assert KeptAt(s.pool, s'.pool, c.index, c.slotIndex, warns) || NewAt(s.pool, s.now, s'.pool, c.index, c.slotIndex);
    }
  }

  /** With a clock that never runs back, a matching bind time old enough means the same binding. */
  lemma MatchIsSameBinding(s: Sys, c: BusyCandidate, o: Options, probes: map<VmName, Probe>)
    requires CandidateInv(s, c) && ReapJustified(c, o, probes)
    requires Located(s.pool, c) && SameBinding(s.pool.states[c.index].slots[c.slotIndex], c)
    ensures s.pool.states[c.index].slots[c.slotIndex].bind == c.bind
  {
  }

  /** What an act leaves behind for reaping: time, used VMs and candidates only grow. */
  predicate Later(s: Sys, s': Sys) {
    s.now <= s'.now && s.used <= s'.used && s.pool.nextBind <= s'.pool.nextBind
  }

  lemma WorkerGoesOn(s: Sys, i: nat, a: WorkerAct)
    requires WorkerEnabled(s, i, a)
    ensures var s' := WorkerApply(s, i, a); s.now == s'.now && s.used <= s'.used
  {
    hide JudgeWorker, ActivateWorker, DetachWorker, ClearWorker, MarkWarming, MarkWarmError;
  }

  lemma ClockGoesOn(s: Sys, a: Act)
    requires Enabled(s, a)
    ensures s.now <= Apply(s, a).now && s.used <= Apply(s, a).used
  {
    if a.WorkerStep? {
      WorkerGoesOn(s, a.i, a.worker);
      hide WorkerApply, WorkerEnabled;
    } else {
      hide JudgeSlot, ClaimJob, ClaimResume, CanResume, FinishSlotJob, RecycleFreeingSlot, BusyCandidates, WarnSlot,
           MayWarn, RequestBusyRecycle, Decide, CancelRun, RequestRecycle, CancelContext;
    }
  }

  lemma ActIsLater(s: Sys, a: Act)
    requires WorkersInv(s) && BindsFresh(s.pool) && Enabled(s, a)
    ensures Later(s, Apply(s, a))
  {
    hide WorkersInv, BindsFresh, Apply, Enabled;
    ActEvolves(s, a);
    ClockGoesOn(s, a);
  }

  /** The candidates of a fresh snapshot are the bindings themselves. */
  lemma SnapshotInv(s: Sys)
    requires WorkersInv(s) && OwnInv(s) && BindsFresh(s.pool)
    ensures PassInv(s, Pass(BusyCandidates(s.pool, |s.pool.states|, s.now), None, 0, map[], false))
  {
    BusyCandidatesExact(s.pool, |s.pool.states|, s.now);
    var candidates := BusyCandidates(s.pool, |s.pool.states|, s.now);
    forall n | 0 <= n < |candidates|
      ensures CandidateInv(s, candidates[n])
    {
      var c := candidates[n];
      assert c in candidates;
      assert WorkerInv(s.pool, s.ctxDone, s.pool.states[c.index], s.tasks[c.index]);
      assert Owned(s, c.index) == Some(c.vm);
      assert BusyAt(s.pool, c.index, c.slotIndex);
    }
  }

  /** Passes that did not act keep their invariant. */
  lemma PassKept(s: Sys, s': Sys, pass: Pass, warns: bool)
    requires PassInv(s, pass) && BindingsEvolve(s.pool, s.now, s'.pool, warns) && Later(s, s')
    ensures PassInv(s', pass)
  {
    forall n | 0 <= n < |pass.candidates|
      ensures CandidateInv(s', pass.candidates[n])
    {
      CandidateKept(s, s', pass.candidates[n], warns);
    }
  }

  lemma WorkerHistories(s: Sys, i: nat, a: WorkerAct)
    requires WorkerEnabled(s, i, a)
    ensures var s' := WorkerApply(s, i, a);
      s'.passes == s.passes && s'.warned == s.warned && s'.evidence == s.evidence
  {
    hide ClaimWorker, MarkWarming, MarkWarmError, ActivateWorker, ClearWorker, JudgeWorker, DetachWorker;
  }

  lemma SlotHistories(s: Sys, i: nat, k: nat, a: SlotAct)
    requires SlotEnabled(s, i, k, a)
    ensures var s' := SlotApply(s, i, k, a);
      s'.passes == s.passes && s'.warned == s.warned && s'.evidence == s.evidence
  {
    hide ClaimResume, ClaimJob, FinishSlotJob, RecycleFreeingSlot, CancelContext, CanResume;
  }

  /** Only passes write the histories of passes. */
  lemma OthersKeepHistories(s: Sys, a: Act)
    requires Enabled(s, a) && !a.PassStep?
    ensures Apply(s, a).warned == s.warned && Apply(s, a).evidence == s.evidence
    ensures !a.StartPass? ==> Apply(s, a).passes == s.passes
  {
    hide Enqueue, Reconfigure, CancelRun, Shutdown, RequestRecycle, BusyCandidates, WorkerApply, SlotApply;
    if a.WorkerStep? { WorkerHistories(s, a.i, a.worker); }
    if a.SlotStep? { SlotHistories(s, a.i, a.k, a.slot); }
  }

  /** A pass's own step keeps what the pass relies on. */
  lemma OwnPassKept(s: Sys, j: nat, a: PassAct)
    requires ReapInv(s) && PassEnabled(s, j, a)
    requires BindingsEvolve(s.pool, s.now, PassApply(s, j, a).pool, a.PWarn?)
    ensures PassInv(PassApply(s, j, a), PassApply(s, j, a).passes[j])
  {
    var s' := PassApply(s, j, a);
    assert PassInv(s, s.passes[j]) && Later(s, s');
    PassKept(s, s', s.passes[j], a.PWarn?);
    hide CandidateInv, BindingsEvolve, RequestBusyRecycle, WarnSlot, MayWarn;
  }

  lemma PassStepFrame(s: Sys, j: nat, a: PassAct)
    requires PassEnabled(s, j, a)
    ensures |PassApply(s, j, a).passes| == |s.passes|
    ensures forall m :: 0 <= m < |s.passes| && m != j ==> PassApply(s, j, a).passes[m] == s.passes[m]
  {
  }

  lemma PassesKept(s: Sys, a: Act)
    requires WorkersInv(s) && OwnInv(s) && ReapInv(s) && Enabled(s, a)
    ensures forall j :: 0 <= j < |Apply(s, a).passes| ==> PassInv(Apply(s, a), Apply(s, a).passes[j])
  {
    var s' := Apply(s, a);
    ActEvolves(s, a);
    ActIsLater(s, a);
    hide WorkersInv, OwnInv, BindingsEvolve, BindsFresh, BindsDistinct, EvidenceInv, WarnedInv;
    if a.PassStep? {
      OwnPassKept(s, a.j, a.pass);
      PassStepFrame(s, a.j, a.pass);
    } else {
      OthersKeepHistories(s, a);
      if a.StartPass? { SnapshotInv(s); }
    }
    hide Enabled, PassEnabled, PassInv;
    forall j | 0 <= j < |s'.passes|
      ensures PassInv(s', s'.passes[j])
    {
      if j < |s.passes| && !(a.PassStep? && a.j == j) {
        assert s'.passes[j] == s.passes[j];
        PassKept(s, s', s.passes[j], IsWarning(a));
      }
    }
  }

  lemma RequestEvidence(s: Sys, j: nat)
    requires ReapInv(s) && PassEnabled(s, j, PRequest)
    ensures EvidenceInv(PassApply(s, j, PRequest))
  {
    var pass := s.passes[j];
    var c := pass.candidates[pass.at];
    assert PassInv(s, pass);
    assert CandidateInv(s, c);
    if Located(s.pool, c) && SameBinding(s.pool.states[c.index].slots[c.slotIndex], c) {
      MatchIsSameBinding(s, c, pass.options.value, pass.probes);
    }
  }

  predicate IsRequest(a: Act) {
    a.PassStep? && a.pass.PRequest?
  }

  lemma OthersKeepEvidence(s: Sys, a: Act)
    requires Enabled(s, a) && !IsRequest(a)
    ensures Apply(s, a).evidence == s.evidence
  {
    hide WorkerApply, SlotApply, Enabled;
    if a.PassStep? {
      hide WarnSlot, MayWarn;
    } else {
      OthersKeepHistories(s, a);
    }
  }

  lemma EvidenceKept(s: Sys, a: Act)
    requires ReapInv(s) && Enabled(s, a)
    ensures EvidenceInv(Apply(s, a))
  {
    if IsRequest(a) {
      RequestEvidence(s, a.j);
    } else {
      OthersKeepEvidence(s, a);
      NoRecycleCause(s, a);
    }
  }

  /** No context was newly cancelled for a recycle. */
  predicate NoNewRecycle(p: PoolData, q: PoolData) {
    forall b :: b in q.causes && q.causes[b] == RecycleCause ==> b in p.causes && p.causes[b] == RecycleCause
  }

  lemma ResetCancelsPlainly(p: PoolData, i: nat, w: WorkerState, n: int)
    requires i < |p.states|
    ensures NoNewRecycle(p, ResetSlotsTo(p.Set(i, w), i, n).Broadcast())
  {
  }

  lemma WorkerCancels(s: Sys, i: nat, a: WorkerAct)
    requires WorkerEnabled(s, i, a)
    ensures NoNewRecycle(s.pool, WorkerApply(s, i, a).pool)
  {
    var p, t := s.pool, s.tasks[i];
    var w := p.states[i];
    match a {
      case WMarkWarming =>
        ResetCancelsPlainly(p, i, w.(vm := None, bornAt := 0, idleSince := 0, warming := true,
                                     recycle := false, lastErr := None), p.options.jobsPerVM);
      case WMarkError =>
        ResetCancelsPlainly(p, i, w.(lastErr := Some(t.pc.err), warming := false, recycle := false),
                            p.options.jobsPerVM);
      case WActivate =>
        ResetCancelsPlainly(p, i, w.(vm := Some(t.pc.vm), bornAt := s.now, idleSince := s.now, warming := false,
                                     recycle := false, lastErr := None), t.pc.slotCount);
      case WPoll =>
        ResetCancelsPlainly(p, i, w.(vm := None, recycle := false, warming := true, idleSince := 0),
                            p.options.jobsPerVM);
      case _ => assert WorkerApply(s, i, a).pool.causes == p.causes;
    }
  }

  lemma SlotCancels(s: Sys, i: nat, k: nat, a: SlotAct)
    requires SlotEnabled(s, i, k, a)
    ensures NoNewRecycle(s.pool, SlotApply(s, i, k, a).pool)
  {
    if Ends(a) {
      EndResult(s, i, k, a);
    }
  }

  /** Only a pass's request cancels a context for a recycle. */
  lemma NoRecycleCause(s: Sys, a: Act)
    requires Enabled(s, a) && !IsRequest(a)
    ensures NoNewRecycle(s.pool, Apply(s, a).pool)
  {
    match a {
      case WorkerStep(i, w) => WorkerCancels(s, i, w);
      case SlotStep(i, k, x) => SlotCancels(s, i, k, x);
      case _ =>
    }
  }

  /** Marks only appear on bindings that have them already, or with a warning. */
  lemma QuietKeepsWarned(s: Sys, s': Sys, warns: bool)
    requires BindsFresh(s.pool) && WarnedInv(s) && BindingsEvolve(s.pool, s.now, s'.pool, warns) && s'.warned == s.warned
    ensures WarnedInv(s')
  {
    forall i: nat, k: nat | BusyAt(s'.pool, i, k)
      ensures s'.pool.states[i].slots[k].bind in s'.warned ==>
                s'.pool.states[i].slots[k].reapWarnedAt == s'.pool.states[i].slots[k].boundAt
    {
      assert KeptAt(s.pool, s'.pool, i, k, warns) || NewAt(s.pool, s.now, s'.pool, i, k);
    }
  }

  lemma WarningKeepsWarned(s: Sys, c: BusyCandidate)
    requires BindsFresh(s.pool) && BindsDistinct(s.pool) && WarnedInv(s) && MayWarn(s.pool, c)
    ensures WarnedInv(s.(pool := WarnSlot(s.pool, c),
                         warned := s.warned + [s.pool.states[c.index].slots[c.slotIndex].bind]))
  {
    var bind := s.pool.states[c.index].slots[c.slotIndex].bind;
    assert BusyAt(s.pool, c.index, c.slotIndex);
    assert bind !in s.warned;
    var q := WarnSlot(s.pool, c);
    forall i: nat, k: nat | BusyAt(q, i, k)
      ensures q.states[i].slots[k].bind in s.warned + [bind] ==>
                q.states[i].slots[k].reapWarnedAt == q.states[i].slots[k].boundAt
    {
      assert BusyAt(s.pool, i, k);
      assert (i, k) != (c.index, c.slotIndex as nat) ==> s.pool.states[i].slots[k].bind != bind;
    }
  }

  lemma WarnedKept(s: Sys, a: Act)
    requires WorkersInv(s) && ReapInv(s) && Enabled(s, a)
    ensures WarnedInv(Apply(s, a))
  {
    ActEvolves(s, a);
    hide WorkersInv, BindingsEvolve, BindsFresh, BindsDistinct, PassInv, EvidenceInv;
    if IsWarning(a) && MayWarn(s.pool, s.passes[a.j].candidates[s.passes[a.j].at]) {
      WarningKeepsWarned(s, s.passes[a.j].candidates[s.passes[a.j].at]);
    } else {
      if a.PassStep? { hide RequestBusyRecycle; } else { OthersKeepHistories(s, a); }
      hide WarnedInv;
      QuietKeepsWarned(s, Apply(s, a), IsWarning(a));
    }
  }

  // ----- warnings are followed by requests --------------------------------------------------

  /** A pass has claimed the binding at (i, k) and has its request still to make. */
  predicate AboutToRequest(s: Sys, j: nat, i: nat, k: nat) {
    && j < |s.passes| && s.passes[j].requesting && s.passes[j].at < |s.passes[j].candidates|
    && var c := s.passes[j].candidates[s.passes[j].at];
       && c.index == i && c.slotIndex == k && Located(s.pool, c)
       && SameBinding(s.pool.states[i].slots[k], c)
  }

  predicate MarkedAt(s: Sys, i: nat, k: nat) {
    BusyAt(s.pool, i, k) && s.pool.states[i].vm.Some? && Warned(s.pool.states[i].slots[k])
  }

  ghost predicate Settling(s: Sys, i: nat, k: nat)
    requires i < |s.pool.states|
  {
    s.pool.states[i].recycle || exists j: nat :: AboutToRequest(s, j, i, k)
  }

  ghost predicate SettledInv(s: Sys) {
    && 0 < s.now
    && forall i: nat, k: nat :: MarkedAt(s, i, k) ==> Settling(s, i, k)
  }

  /** A requesting pass moves only by making its request. */
  lemma RequesterWaits(s: Sys, a: Act, j: nat)
    requires Enabled(s, a) && j < |s.passes| && s.passes[j].requesting && PassInv(s, s.passes[j])
    requires a != PassStep(j, PRequest)
    ensures j < |Apply(s, a).passes| && Apply(s, a).passes[j] == s.passes[j]
  {
    hide WorkerApply, SlotApply, CandidateInv, ReapJustified;
    if a.PassStep? {
      PassStepFrame(s, a.j, a.pass);
    } else {
      OthersKeepHistories(s, a);
    }
  }

  /** The claim of pass j outlives every act but its own request, which marks the VM. */
  lemma ClaimKept(s: Sys, s': Sys, j: nat, i: nat, k: nat, warns: bool)
    requires AboutToRequest(s, j, i, k) && MarkedAt(s', i, k)
    requires j < |s'.passes| && s'.passes[j] == s.passes[j]
    requires KeptAt(s.pool, s'.pool, i, k, warns)
    ensures AboutToRequest(s', j, i, k)
  {
  }

  lemma RequestMarks(s: Sys, j: nat, i: nat, k: nat)
    requires PassEnabled(s, j, PRequest) && AboutToRequest(s, j, i, k)
    ensures i < |PassApply(s, j, PRequest).pool.states| && PassApply(s, j, PRequest).pool.states[i].recycle
  {
  }

  /** A mark is set by a pass that is about to make its request. */
  lemma NewMark(s: Sys, a: Act, i: nat, k: nat)
    requires Enabled(s, a) && IsWarning(a) && BusyAt(s.pool, i, k) && MarkedAt(Apply(s, a), i, k)
    requires !Warned(s.pool.states[i].slots[k])
    requires KeptAt(s.pool, Apply(s, a).pool, i, k, true)
    ensures AboutToRequest(Apply(s, a), a.j, i, k)
  {
  }

  lemma SettledKept(s: Sys, a: Act)
    requires WorkersInv(s) && ReapInv(s) && SettledInv(s) && Enabled(s, a)
    ensures SettledInv(Apply(s, a))
  {
    var s' := Apply(s, a);
    ActIsLater(s, a);
    ActEvolves(s, a);
    EveryEffect(s, a);
    forall i: nat, k: nat | MarkedAt(s', i, k)
      ensures Settling(s', i, k)
    {
      assert KeptAt(s.pool, s'.pool, i, k, IsWarning(a));
      if Warned(s.pool.states[i].slots[k]) {
        assert MarkedAt(s, i, k);
        if s.pool.states[i].recycle {
          MarkSticks(s, s', i);
        } else {
          var j: nat :| AboutToRequest(s, j, i, k);
          if a == PassStep(j, PRequest) {
            RequestMarks(s, j, i, k);
          } else {
            RequesterWaits(s, a, j);
            ClaimKept(s, s', j, i, k, IsWarning(a));
          }
        }
      } else {
        NewMark(s, a, i, k);
      }
    }
  }

  lemma MarkSticks(s: Sys, s': Sys, i: nat)
    requires WorkersInv(s) && Effect(s, s') && i < |s.pool.states| && s.pool.states[i].recycle
    requires s.pool.states[i].vm.Some? && s'.pool.states[i].vm == s.pool.states[i].vm
    ensures s'.pool.states[i].recycle
  {
    var j :| 0 <= j <= |s.tasks| && EffectAt(s, s', j);
    assert i != j ==> UnchangedAt(s, s', i);
    assert WorkerInv(s.pool, s.ctxDone, s.pool.states[i], s.tasks[i]);
  }

  lemma ReapKept(s: Sys, a: Act)
    requires WorkersInv(s) && OwnInv(s) && ReapInv(s) && Enabled(s, a)
    ensures ReapInv(Apply(s, a))
  {
    ActEvolves(s, a);
    BindsKept(s.pool, s.now, Apply(s, a).pool, IsWarning(a));
    PassesKept(s, a);
    EvidenceKept(s, a);
    WarnedKept(s, a);
  }

  lemma {:induction false} ReapReachable(run: seq<Sys>, acts: seq<Act>, n: nat)
    requires IsRun(run, acts) && n < |run|
    ensures PoolInv(run[n]) && ReapInv(run[n]) && SettledInv(run[n])
  {
    Reachable(run, acts, n);
    if n > 0 {
      ReapReachable(run, acts, n - 1);
      Step(run, acts, n - 1);
      ReapKept(run[n - 1], acts[n - 1]);
      SettledKept(run[n - 1], acts[n - 1]);
    }
  }

  // ----- main results -----------------------------------------------------------------------

  predicate BoundAs(p: PoolData, i: nat, k: nat, bind: nat, c: BusyCandidate) {
    && BusyAt(p, i, k) && p.states[i].slots[k].bind == bind
    && p.states[i].slots[k].boundAt == c.boundAt
    && p.states[i].slots[k].jobID == c.jobID && p.states[i].slots[k].runID == c.runID
  }

  /** What new evidence is about: the binding the request found, as the pass had collected it. */
  lemma NewEvidence(s: Sys, a: Act, bind: nat)
    requires ReapInv(s) && Enabled(s, a) && bind in Apply(s, a).evidence
    requires bind !in s.evidence || Apply(s, a).evidence[bind] != s.evidence[bind]
    ensures var e := Apply(s, a).evidence[bind];
      e.c.index >= 0 && e.c.slotIndex >= 0 && BoundAs(s.pool, e.c.index, e.c.slotIndex, bind, e.c) && e.c.now <= s.now
  {
    if !IsRequest(a) {
      OthersKeepEvidence(s, a);
    } else {
      var pass := s.passes[a.j];
      assert PassInv(s, pass) && CandidateInv(s, pass.candidates[pass.at]);
      hide RequestBusyRecycle;
    }
  }

  /** Evidence goes back to a state in which the binding it names was on its slot. */
  lemma {:induction false} EvidenceHasItsBinding(run: seq<Sys>, acts: seq<Act>, n: nat, bind: nat) returns (m: nat)
    requires IsRun(run, acts) && n < |run| && bind in run[n].evidence
    ensures m <= n
    ensures var c := run[n].evidence[bind].c;
      c.slotIndex >= 0 && BoundAs(run[m].pool, c.index, c.slotIndex, bind, c) && c.now <= run[m].now
  {
    hide Enabled, Apply, BoundAs;
    Step(run, acts, n - 1);
    ReapReachable(run, acts, n - 1);
    hide IsRun, PoolInv, ReapInv, SettledInv;
    if bind !in run[n - 1].evidence || run[n].evidence[bind] != run[n - 1].evidence[bind] {
      m := n - 1;
      NewEvidence(run[n - 1], acts[n - 1], bind);
    } else {
      m := EvidenceHasItsBinding(run, acts, n - 1, bind);
    }
  }

  predicate BindingAt(p: PoolData, i: nat, k: nat, bind: nat) {
    BusyAt(p, i, k) && p.states[i].slots[k].bind == bind
  }

  /** A binding stays on its slot under its own ids and bind time. */
  lemma {:induction false} BindingIsFixed(run: seq<Sys>, acts: seq<Act>, m: nat, n: nat, i: nat, k: nat, j: nat, l: nat, bind: nat)
    requires IsRun(run, acts) && m <= n < |run|
    requires BindingAt(run[m].pool, i, k, bind) && BindingAt(run[n].pool, j, l, bind)
    ensures i == j && k == l
    ensures var was, now := run[m].pool.states[i].slots[k], run[n].pool.states[j].slots[l];
      now.boundAt == was.boundAt && now.jobID == was.jobID && now.runID == was.runID
  {
    hide Init, Enabled, Apply;
    ReapReachable(run, acts, m);
    if m < n {
      Step(run, acts, n - 1);
      ReapReachable(run, acts, n - 1);
      BindsGrow(run, acts, m, n - 1);
      var p := run[n - 1].pool;
      hide IsRun, WorkersInv, OwnInv, FifoInv, PassInv, EvidenceInv, WarnedInv, SettledInv, BindsDistinct;
      ActEvolves(run[n - 1], acts[n - 1]);
      assert KeptAt(p, run[n].pool, j, l, IsWarning(acts[n - 1]));
      hide BindingsEvolve;
      BindingIsFixed(run, acts, m, n - 1, i, k, j, l, bind);
    }
  }

  lemma {:induction false} BindsGrow(run: seq<Sys>, acts: seq<Act>, m: nat, n: nat)
    requires IsRun(run, acts) && m <= n < |run|
    ensures run[m].pool.nextBind <= run[n].pool.nextBind
  {
    hide Init, Enabled, Apply;
    if m < n {
      BindsGrow(run, acts, m, n - 1);
      Step(run, acts, n - 1);
      ReapReachable(run, acts, n - 1);
      hide IsRun, OwnInv, FifoInv, PassInv, EvidenceInv, WarnedInv, SettledInv, BindsDistinct, WorkersInv, BindsFresh;
      ActEvolves(run[n - 1], acts[n - 1]);
    }
  }

  /**
   Reap safety: in every reachable state, a job context that was cancelled for a recycle belongs to a
   binding some pass had in hand, with that binding's own bind time, older than MaxBind, or older than
   PickupTimeout with that pass's own probe of the VM not listing the slot. `m` is a moment at which the
   binding was on the slot the pass names; wherever else it is found it has the same bind time.
   */
  lemma RecycleIsJustified(run: seq<Sys>, acts: seq<Act>, n: nat, bind: nat) returns (m: nat)
    requires IsRun(run, acts) && n < |run|
    requires bind in run[n].pool.causes && run[n].pool.causes[bind] == RecycleCause
    ensures bind in run[n].evidence && m <= n
    ensures var e := run[n].evidence[bind];
      && ReapJustified(e.c, e.options, e.probes)
      && e.c.slotIndex >= 0 && BoundAs(run[m].pool, e.c.index, e.c.slotIndex, bind, e.c) && e.c.now <= run[m].now
      && forall x: nat, i: nat, k: nat :: x < |run| && BindingAt(run[x].pool, i, k, bind) ==>
           BoundAs(run[x].pool, i, k, bind, e.c)
  {
    ReapReachable(run, acts, n);
    m := EvidenceHasItsBinding(run, acts, n, bind);
    var e := run[n].evidence[bind];
    forall x: nat, i: nat, k: nat | x < |run| && BindingAt(run[x].pool, i, k, bind)
      ensures BoundAs(run[x].pool, i, k, bind, e.c)
    {
      if x <= m {
        BindingIsFixed(run, acts, x, m, i, k, e.c.index, e.c.slotIndex, bind);
      } else {
        BindingIsFixed(run, acts, m, x, e.c.index, e.c.slotIndex, i, k, bind);
      }
    }
    hide IsRun, WorkersInv, OwnInv, FifoInv, SettledInv;
  }

  /** A request that takes effect reaches the very binding of the snapshot, not one bound later. */
  lemma RequestReachesItsBinding(run: seq<Sys>, acts: seq<Act>, n: nat, j: nat)
    requires IsRun(run, acts) && n < |acts| && acts[n] == PassStep(j, PRequest)
    requires Enabled(run[n], acts[n]) && run[n + 1].pool != run[n].pool
    ensures var s, pass := run[n], run[n].passes[j];
              && j < |s.passes| && pass.options.Some? && pass.at < |pass.candidates|
              && var c := pass.candidates[pass.at];
                 && Located(s.pool, c) && s.pool.states[c.index].slots[c.slotIndex].bind == c.bind
                 && ReapJustified(c, pass.options.value, pass.probes)
                 && run[n + 1].pool.states[c.index].recycle
  {
    ReapReachable(run, acts, n);
    Step(run, acts, n);
    var s, pass := run[n], run[n].passes[j];
    assert PassInv(s, pass);
    var c := pass.candidates[pass.at];
    assert CandidateInv(s, c);
    MatchIsSameBinding(s, c, pass.options.value, pass.probes);
  }

  /** No binding is ever warned for reaping twice, by any number of passes. */
  lemma BindingWarnedOnce(run: seq<Sys>, acts: seq<Act>, n: nat, i: nat, j: nat)
    requires IsRun(run, acts) && n < |run| && i < j < |run[n].warned|
    ensures run[n].warned[i] != run[n].warned[j]
  {
    ReapReachable(run, acts, n);
  }

  /** A pass keeps its candidates and every probe it made. */
  predicate PassGrows(before: Pass, after: Pass) {
    && after.candidates == before.candidates
    && forall vm :: vm in before.probes ==> vm in after.probes && after.probes[vm] == before.probes[vm]
  }

  lemma PassStepGrows(s: Sys, j: nat, a: PassAct)
    requires PassEnabled(s, j, a)
    ensures PassGrows(s.passes[j], PassApply(s, j, a).passes[j])
  {
    hide RequestBusyRecycle, WarnSlot, MayWarn;
  }

  lemma ActGrowsPass(s: Sys, a: Act, j: nat)
    requires Enabled(s, a) && j < |s.passes|
    ensures j < |Apply(s, a).passes| && PassGrows(s.passes[j], Apply(s, a).passes[j])
  {
    hide WorkerApply, SlotApply;
    if a.PassStep? {
      PassStepGrows(s, a.j, a.pass);
      PassStepFrame(s, a.j, a.pass);
    } else {
      OthersKeepHistories(s, a);
    }
  }

  lemma {:induction false} RunGrowsPass(run: seq<Sys>, acts: seq<Act>, n: nat, m: nat, j: nat)
    requires IsRun(run, acts) && n <= m < |run| && j < |run[n].passes|
    ensures j < |run[m].passes| && PassGrows(run[n].passes[j], run[m].passes[j])
  {
    hide Init, Enabled, Apply;
    if n < m {
      RunGrowsPass(run, acts, n, m - 1, j);
      Step(run, acts, m - 1);
      ActGrowsPass(run[m - 1], acts[m - 1], j);
    }
  }

  predicate ProbesAt(s: Sys, a: Act, j: nat) {
    Enabled(s, a) && a.PassStep? && a.pass.PProbe? && a.j == j
  }

  /** A pass probes every VM at most once, and decides about all of the VM's slots by that one probe. */
  lemma VmProbedOnce(run: seq<Sys>, acts: seq<Act>, n: nat, m: nat, j: nat)
    requires IsRun(run, acts) && n < m < |acts|
    requires ProbesAt(run[n], acts[n], j) && ProbesAt(run[m], acts[m], j)
    ensures run[n].passes[j].candidates[run[n].passes[j].at].vm != run[m].passes[j].candidates[run[m].passes[j].at].vm
    ensures var vm := run[n].passes[j].candidates[run[n].passes[j].at].vm;
      vm in run[m].passes[j].probes && run[m].passes[j].probes[vm] == acts[n].pass.probe
  {
    hide WorkerApply, SlotApply;
    Step(run, acts, n);
    ActGrowsPass(run[n], acts[n], j);
    RunGrowsPass(run, acts, n + 1, m, j);
  }

  /** With no pass between claim and request, every warned binding sits on a marked VM, as ReapBusyWorkers relies on. */
  lemma WarningsAreSettled(run: seq<Sys>, acts: seq<Act>, n: nat)
    requires IsRun(run, acts) && n < |run|
    requires forall j :: 0 <= j < |run[n].passes| ==> !run[n].passes[j].requesting
    ensures WarningsSettled(run[n].pool)
  {
    ReapReachable(run, acts, n);
    var s := run[n];
    forall i: nat, k: nat | MarkedAt(s, i, k)
      ensures s.pool.states[i].recycle
    {
      assert Settling(s, i, k);
    }
    forall i, k | 0 <= i < |s.pool.states| && s.pool.states[i].vm.Some? && 0 <= k < |s.pool.states[i].slots|
      && Warned(s.pool.states[i].slots[k])
      ensures s.pool.states[i].recycle
    {
      assert MarkedAt(s, i, k);
    }
  }
}
