/** A marked VM is not reaped again: no later pass cancels any of the bindings it still has. */
module PoolMarked {
  import opened Wrappers
  import opened PoolSections
  import opened PoolRuns
  import opened PoolWorkers
  import opened PoolSafety
  import opened PoolReaping

  /** Pass j claimed a binding of worker i's VM and has its request still to make. */
  predicate RequestsOn(s: Sys, j: nat, i: nat) {
    && j < |s.passes| && s.passes[j].requesting && s.passes[j].at < |s.passes[j].candidates|
    && var c := s.passes[j].candidates[s.passes[j].at];
       c.index == i && s.pool.Holds(i, c.vm)
  }

  /** No pass is between claim and request on worker i's VM. */
  ghost predicate Unclaimed(s: Sys, i: nat) {
    forall j: nat :: !RequestsOn(s, j, i)
  }

  /** The binding is on slot k of worker i or on none. */
  ghost predicate OnlyAt(p: PoolData, bind: nat, i: nat, k: nat) {
    && bind < p.nextBind
    && forall j: nat, m: nat :: BusyAt(p, j, m) && p.states[j].slots[m].bind == bind ==> j == i && m == k
  }

  predicate ReapCancelled(p: PoolData, bind: nat) {
    bind in p.causes && p.causes[bind] == RecycleCause
  }

  lemma OwnStepUnclaimed(s: Sys, i: nat, j: nat, a: PassAct)
    requires PassEnabled(s, j, a) && Unclaimed(s, i) && i < |s.pool.states| && s.pool.states[i].recycle
    requires var q := PassApply(s, j, a).pool; i < |q.states| && q.states[i].vm == s.pool.states[i].vm
    ensures !RequestsOn(PassApply(s, j, a), j, i)
  {
    assert !RequestsOn(s, j, i);
    hide RequestBusyRecycle, WarnSlot;
  }

  lemma UnclaimedKept(s: Sys, a: Act, i: nat)
    requires Enabled(s, a) && Unclaimed(s, i) && i < |s.pool.states| && s.pool.states[i].recycle
    requires var q := Apply(s, a).pool; i < |q.states| && q.states[i].vm == s.pool.states[i].vm
    ensures Unclaimed(Apply(s, a), i)
  {
    hide WorkerApply, SlotApply;
    var s' := Apply(s, a);
    if a.PassStep? {
      OwnStepUnclaimed(s, i, a.j, a.pass);
      PassStepFrame(s, a.j, a.pass);
    } else {
      OthersKeepHistories(s, a);
    }
    hide Enabled, Apply;
    forall j: nat
      ensures !RequestsOn(s', j, i)
    {
      assert !RequestsOn(s, j, i);
    }
  }

  lemma OnlyAtKept(p: PoolData, now: int, q: PoolData, warns: bool, bind: nat, i: nat, k: nat)
    requires OnlyAt(p, bind, i, k) && BindingsEvolve(p, now, q, warns)
    ensures OnlyAt(q, bind, i, k)
  {
    forall j: nat, m: nat | BusyAt(q, j, m) && q.states[j].slots[m].bind == bind
      ensures j == i && m == k
    {
      assert KeptAt(p, q, j, m, warns) || NewAt(p, now, q, j, m);
    }
  }

  /** A request on another VM, or one that finds its binding gone, spares this one. */
  lemma RequestSpares(s: Sys, j: nat, bind: nat, i: nat, k: nat)
    requires PassEnabled(s, j, PRequest) && Unclaimed(s, i) && OnlyAt(s.pool, bind, i, k)
    requires !ReapCancelled(s.pool, bind)
    ensures !ReapCancelled(PassApply(s, j, PRequest).pool, bind)
  {
    var c := s.passes[j].candidates[s.passes[j].at];
    if Located(s.pool, c) && SameBinding(s.pool.states[c.index].slots[c.slotIndex], c) {
      assert !RequestsOn(s, j, i) && BusyAt(s.pool, c.index, c.slotIndex);
      assert s.pool.states[c.index].slots[c.slotIndex].bind != bind;
    }
  }

  lemma StepSpares(s: Sys, a: Act, bind: nat, i: nat, k: nat)
    requires Enabled(s, a) && Unclaimed(s, i) && OnlyAt(s.pool, bind, i, k) && !ReapCancelled(s.pool, bind)
    ensures !ReapCancelled(Apply(s, a).pool, bind)
  {
    if IsRequest(a) {
      RequestSpares(s, a.j, bind, i, k);
    } else {
      NoRecycleCause(s, a);
      hide Apply, Enabled;
    }
  }

  lemma {:induction false} SparedWhileMarked(run: seq<Sys>, acts: seq<Act>, n: nat, m: nat, i: nat, k: nat, bind: nat)
    requires IsRun(run, acts) && n <= m < |run| && KeepsItsVm(run, n, m, i)
    requires run[n].pool.states[i].vm.Some? && run[n].pool.states[i].recycle && Unclaimed(run[n], i)
    requires OnlyAt(run[n].pool, bind, i, k) && !ReapCancelled(run[n].pool, bind)
    ensures Unclaimed(run[m], i) && OnlyAt(run[m].pool, bind, i, k) && !ReapCancelled(run[m].pool, bind)
  {
    hide Init, Enabled, Apply, Unclaimed, OnlyAt, ReapCancelled;
    if n < m {
      SparedWhileMarked(run, acts, n, m - 1, i, k, bind);
      MarkStays(run, acts, n, m - 1, i);
      Step(run, acts, m - 1);
      ReapReachable(run, acts, m - 1);
      var s, a := run[m - 1], acts[m - 1];
      hide IsRun, WorkersInv, OwnInv, FifoInv, SettledInv, BindsDistinct, PassInv, EvidenceInv, WarnedInv;
      ActEvolves(s, a);
      hide BindsFresh, BindingsEvolve;
      UnclaimedKept(s, a, i);
      OnlyAtKept(s.pool, s.now, Apply(s, a).pool, IsWarning(a), bind, i, k);
      StepSpares(s, a, bind, i, k);
    }
  }

  /**
   While a marked VM stays on its worker and no pass is about to make a request on it, no binding it has
   is newly cancelled for a recycle, however long it has been bound: no reap pass frees its slot, and the
   VM stays until something else does.
   */
  lemma MarkedVmIsNotReapedAgain(run: seq<Sys>, acts: seq<Act>, n: nat, m: nat, i: nat, k: nat)
    requires IsRun(run, acts) && n <= m < |run| && KeepsItsVm(run, n, m, i)
    requires run[n].pool.states[i].vm.Some? && run[n].pool.states[i].recycle && Unclaimed(run[n], i)
    requires BusyAt(run[n].pool, i, k) && !ReapCancelled(run[n].pool, run[n].pool.states[i].slots[k].bind)
    ensures !ReapCancelled(run[m].pool, run[n].pool.states[i].slots[k].bind)
    ensures Unclaimed(run[m], i)
  {
    ReapReachable(run, acts, n);
    hide IsRun;
    SparedWhileMarked(run, acts, n, m, i, k, run[n].pool.states[i].slots[k].bind);
  }
}
