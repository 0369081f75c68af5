/** Ready is truthful: a pool that reports Ready serves its whole backlog and one job more. */
module PoolReady {
  import opened Wrappers
  import opened PoolSections
  import opened PoolRuns
  import opened PoolWorkers
  import opened PoolSafety

  /** No slot goroutine is between the end of a stalled job and the recycle that follows it. */
  predicate NoStallPending(s: Sys) {
    forall i :: 0 <= i < |s.tasks| ==>
      forall k :: 0 <= k < |s.tasks[i].slots| ==> !s.tasks[i].slots[k].Stalled?
  }

  /** The pool reports Ready, and no stop or stall is under way. */
  predicate ReadyNow(s: Sys) {
    TakeSnapshot(s.pool).ready && !s.ctxDone && NoStallPending(s)
  }

  /** Slot k of worker i is free on a live VM, and its goroutine is on its way to take a job. */
  predicate AboutToClaim(s: Sys, i: nat, k: nat) {
    && i < |s.tasks| && i < |s.pool.states| && k < |s.pool.states[i].slots|
    && var w, t := s.pool.states[i], s.tasks[i];
       && Alive(w) && !w.slots[k].busy
       && if t.pc.Claiming? || t.pc.Spawning? then true
          else
            && t.pc.Waiting? && k < |t.slots|
            && (t.slots[k].Fresh? || (t.slots[k].Polling? && (s.pool.queue != [] ==> Awake(t.slots[k].slept, s.pool.wakes))))
  }

  lemma {:induction false} IdleSlotsUpdate(slots: seq<SlotState>, k: nat, slot: SlotState)
    requires k < |slots| && !slots[k].busy && slot.busy
    ensures IdleSlots(slots[k := slot]) == IdleSlots(slots) - 1
  {
    var last := |slots| - 1;
    if k < last {
      IdleSlotsUpdate(slots[..last], k, slot);
      assert slots[k := slot][..last] == slots[..last][k := slot];
    } else {
      assert slots[k := slot][..last] == slots[..last];
    }
  }

  function IdleOf(w: WorkerState): nat {
    if Alive(w) then IdleSlots(w.slots) else 0
  }

  lemma {:induction false} IdleCountUpdate(states: seq<WorkerState>, i: nat, w: WorkerState)
    requires i < |states|
    ensures IdleCount(states[i := w]) == IdleCount(states) - IdleOf(states[i]) + IdleOf(w)
  {
    var last := |states| - 1;
    if i < last {
      IdleCountUpdate(states[..last], i, w);
      assert states[i := w][..last] == states[..last][i := w];
    } else {
      assert states[i := w][..last] == states[..last];
    }
  }

  lemma {:induction false} IdleSlotWitness(slots: seq<SlotState>)
    requires IdleSlots(slots) > 0
    ensures exists k :: 0 <= k < |slots| && !slots[k].busy
  {
    var last := |slots| - 1;
    if slots[last].busy {
      IdleSlotWitness(slots[..last]);
      var k :| 0 <= k < last && !slots[..last][k].busy;
      assert !slots[k].busy;
    }
  }

  lemma {:induction false} IdleWitness(states: seq<WorkerState>)
    requires IdleCount(states) > 0
    ensures exists i, k :: 0 <= i < |states| && Alive(states[i]) && 0 <= k < |states[i].slots| && !states[i].slots[k].busy
  {
    var last := |states| - 1;
    if IdleOf(states[last]) > 0 {
      IdleSlotWitness(states[last].slots);
    } else {
      IdleWitness(states[..last]);
      var i, k :| 0 <= i < last && Alive(states[..last][i]) && 0 <= k < |states[..last][i].slots|
                  && !states[..last][i].slots[k].busy;
      assert !states[i].slots[k].busy;
    }
  }

  /** A ready pool has a slot whose goroutine is about to take a job. */
  lemma ReadyHasClaimer(s: Sys)
    requires WorkersInv(s) && ReadyNow(s)
    ensures exists i: nat, k: nat :: AboutToClaim(s, i, k)
  {
    IdleWitness(s.pool.states);
    var i, k :| 0 <= i < |s.pool.states| && Alive(s.pool.states[i]) && 0 <= k < |s.pool.states[i].slots|
                && !s.pool.states[i].slots[k].busy;
    var w, t := s.pool.states[i], s.tasks[i];
    assert WorkerInv(s.pool, s.ctxDone, w, t) && SleepsPast(s.pool, t);
    if t.pc.Waiting? {
      assert SlotInv(s.pool, s.ctxDone, w, w.slots[k], t.slots[k]);
      assert !t.slots[k].Stalled?;
    }
    assert AboutToClaim(s, i, k);
  }

  /** A slot goroutine that is polling and about to claim does claim on its next turn. */
  lemma ClaimerClaims(s: Sys, i: nat, k: nat)
    requires WorkersInv(s) && ReadyNow(s) && AboutToClaim(s, i, k) && s.pool.queue != []
    requires k < |s.tasks[i].slots| && s.tasks[i].slots[k].Polling? && s.tasks[i].pc.Waiting?
    ensures Enabled(s, SlotStep(i, k, SPoll)) && Claims(s, SlotStep(i, k, SPoll))
  {
    assert WorkerInv(s.pool, s.ctxDone, s.pool.states[i], s.tasks[i]);
  }

  /** What a claim changes: the queue's head, one slot and its goroutine. */
  lemma ClaimResult(s: Sys, a: Act) returns (pc: SlotPc)
    requires WorkersInv(s) && Enabled(s, a) && Claims(s, a)
    ensures a.i < |s.tasks| == |s.pool.states| && a.k < |s.pool.states[a.i].slots| && a.k < |s.tasks[a.i].slots|
    ensures var s' := Apply(s, a);
      && s'.pool.queue == s.pool.queue[1..] && s'.pool.shuttingDown == s.pool.shuttingDown && s'.ctxDone == s.ctxDone
      && s'.pool.started == s.pool.started && s'.pool.options == s.pool.options
      && |s'.pool.states| == |s.pool.states| && |s'.pool.states[a.i].slots| == |s.pool.states[a.i].slots|
      && var (w, w') := (s.pool.states[a.i], s'.pool.states[a.i]);
         && s'.pool.states == s.pool.states[a.i := w'] && w'.slots == w.slots[a.k := w'.slots[a.k]]
         && w' == w.(idleSince := w'.idleSince, slots := w'.slots)
         && !w.slots[a.k].busy && w'.slots[a.k].busy
    ensures pc.Running?
    ensures Apply(s, a).tasks == s.tasks[a.i := s.tasks[a.i].(slots := s.tasks[a.i].slots[a.k := pc])]
  {
    assert a.i < |s.tasks| == |s.pool.states|;
    hide WorkersInv;
    pc := Running(s.pool.queue[0], s.pool.nextBind);
  }

  /** A claim takes one job and at most one idle slot, so the pool stays ready. */
  lemma ClaimKeepsReady(s: Sys, a: Act)
    requires WorkersInv(s) && ReadyNow(s) && Enabled(s, a) && Claims(s, a)
    ensures ReadyNow(Apply(s, a)) && |Apply(s, a).pool.queue| == |s.pool.queue| - 1
  {
    var pc := ClaimResult(s, a);
    var s' := Apply(s, a);
    hide WorkersInv, Apply, Enabled, Claims;
    var w, w' := s.pool.states[a.i], s'.pool.states[a.i];
    IdleSlotsUpdate(w.slots, a.k, w'.slots[a.k]);
    assert Alive(w') == Alive(w);
    IdleCountUpdate(s.pool.states, a.i, w');
    forall i | 0 <= i < |s'.tasks|
      ensures forall k :: 0 <= k < |s'.tasks[i].slots| ==> !s'.tasks[i].slots[k].Stalled?
    {
      assert forall k :: 0 <= k < |s.tasks[i].slots| ==> !s.tasks[i].slots[k].Stalled?;
    }
  }

  /** A schedule made of slot claims only. */
  ghost predicate ClaimSchedule(states: seq<Sys>, acts: seq<Act>) {
    && |states| == |acts| + 1
    && forall n :: 0 <= n < |acts| ==>
         Enabled(states[n], acts[n]) && Claims(states[n], acts[n]) && states[n + 1] == Apply(states[n], acts[n])
  }

  /**
   From a ready state any schedule of slot claims takes at most the whole backlog, keeps the pool
   ready throughout, and at every point (also when the queue has run empty) leaves a slot that is
   about to take one more job. No busy slot needs to finish for that.
   */
  lemma {:induction false} ReadyIsTruthful(states: seq<Sys>, acts: seq<Act>)
    requires ClaimSchedule(states, acts) && WorkersInv(states[0]) && ReadyNow(states[0])
    ensures WorkersInv(states[|acts|]) && ReadyNow(states[|acts|])
    ensures |states[|acts|].pool.queue| == |states[0].pool.queue| - |acts|
    ensures exists i: nat, k: nat :: AboutToClaim(states[|acts|], i, k)
  {
    var n := |acts|;
    if n > 0 {
      assert ClaimSchedule(states[..n], acts[..n - 1]);
      ReadyIsTruthful(states[..n], acts[..n - 1]);
      assert states[n - 1 + 1] == Apply(states[n - 1], acts[n - 1]);
      WorkersKept(states[n - 1], acts[n - 1]);
      ClaimKeepsReady(states[n - 1], acts[n - 1]);
    }
    ReadyHasClaimer(states[n]);
  }

  // ----- the backlog is served --------------------------------------------------------------

  /** The turns that bring a slot goroutine to a job: none of them ends a job or marks a VM. */
  predicate OnTheWay(a: Act) {
    || (a.WorkerStep? && (a.worker.WClaim? || a.worker.WSpawn?))
    || (a.SlotStep? && (a.slot.SClaimResume? || a.slot.SPoll?))
  }

  ghost predicate ServingSchedule(states: seq<Sys>, acts: seq<Act>) {
    && |states| == |acts| + 1
    && forall n :: 0 <= n < |acts| ==>
         Enabled(states[n], acts[n]) && OnTheWay(acts[n]) && states[n + 1] == Apply(states[n], acts[n])
  }

  /** Turns of slot k's goroutine, or of its worker, before it polls. */
  function Distance(s: Sys, i: nat, k: nat): nat
    requires AboutToClaim(s, i, k)
  {
    var t := s.tasks[i];
    if t.pc.Claiming? then 3 else if t.pc.Spawning? then 2 else if t.slots[k].Fresh? then 1 else 0
  }

  lemma SamePoolStaysReady(s: Sys, s': Sys, i: nat)
    requires ReadyNow(s) && s'.pool == s.pool && s'.ctxDone == s.ctxDone && |s'.tasks| == |s.tasks|
    requires i < |s.tasks| && forall j :: 0 <= j < |s.tasks| && j != i ==> s'.tasks[j] == s.tasks[j]
    requires forall k :: 0 <= k < |s'.tasks[i].slots| ==> !s'.tasks[i].slots[k].Stalled?
    ensures ReadyNow(s')
  {
    hide TakeSnapshot;
  }

  lemma ClaimTurn(s: Sys, i: nat, k: nat)
    requires WorkersInv(s) && ReadyNow(s) && AboutToClaim(s, i, k) && s.tasks[i].pc.Claiming?
    ensures Enabled(s, WorkerStep(i, WClaim))
    ensures var s' := Apply(s, WorkerStep(i, WClaim));
      s'.pool == s.pool && ReadyNow(s') && AboutToClaim(s', i, k) && s'.tasks[i].pc.Spawning?
  {
    assert WorkerInv(s.pool, s.ctxDone, s.pool.states[i], s.tasks[i]);
    SamePoolStaysReady(s, Apply(s, WorkerStep(i, WClaim)), i);
  }

  lemma SpawnTurn(s: Sys, i: nat, k: nat)
    requires WorkersInv(s) && ReadyNow(s) && AboutToClaim(s, i, k) && s.tasks[i].pc.Spawning?
    ensures Enabled(s, WorkerStep(i, WSpawn))
    ensures var s' := Apply(s, WorkerStep(i, WSpawn));
      s'.pool == s.pool && ReadyNow(s') && AboutToClaim(s', i, k) && s'.tasks[i].pc.Waiting?
      && s'.tasks[i].slots[k].Fresh?
  {
    assert WorkerInv(s.pool, s.ctxDone, s.pool.states[i], s.tasks[i]);
    SamePoolStaysReady(s, Apply(s, WorkerStep(i, WSpawn)), i);
  }

  lemma FreshTurn(s: Sys, i: nat, k: nat)
    requires WorkersInv(s) && ReadyNow(s) && AboutToClaim(s, i, k) && s.tasks[i].pc.Waiting?
    requires s.tasks[i].slots[k].Fresh?
    ensures Enabled(s, SlotStep(i, k, SClaimResume))
    ensures var s' := Apply(s, SlotStep(i, k, SClaimResume));
      s'.pool == s.pool && ReadyNow(s') && AboutToClaim(s', i, k) && s'.tasks[i].pc.Waiting?
      && s'.tasks[i].slots[k].Polling?
  {
    SamePoolStaysReady(s, Apply(s, SlotStep(i, k, SClaimResume)), i);
  }

  /** Some turn claims a job, or brings the slot one turn nearer to it. */
  lemma NextTurn(s: Sys, i: nat, k: nat) returns (a: Act)
    requires WorkersInv(s) && ReadyNow(s) && AboutToClaim(s, i, k) && s.pool.queue != []
    ensures Enabled(s, a) && OnTheWay(a) && WorkersInv(Apply(s, a)) && ReadyNow(Apply(s, a))
    ensures || |Apply(s, a).pool.queue| == |s.pool.queue| - 1
            || (Apply(s, a).pool.queue == s.pool.queue && AboutToClaim(Apply(s, a), i, k)
                && Distance(Apply(s, a), i, k) < Distance(s, i, k))
  {
    hide WorkersInv, ReadyNow, Apply, Enabled;
    var t := s.tasks[i];
    if t.pc.Claiming? {
      a := WorkerStep(i, WClaim);
      ClaimTurn(s, i, k);
    } else if t.pc.Spawning? {
      a := WorkerStep(i, WSpawn);
      SpawnTurn(s, i, k);
    } else if t.slots[k].Fresh? {
      a := SlotStep(i, k, SClaimResume);
      FreshTurn(s, i, k);
    } else {
      a := SlotStep(i, k, SPoll);
      ClaimerClaims(s, i, k);
      ClaimKeepsReady(s, a);
    }
    WorkersKept(s, a);
  }

  lemma PrependTurn(s: Sys, a: Act, rest: seq<Sys>, more: seq<Act>)
    requires Enabled(s, a) && OnTheWay(a) && ServingSchedule(rest, more) && rest[0] == Apply(s, a)
    ensures ServingSchedule([s] + rest, [a] + more)
  {
    hide Enabled, Apply, OnTheWay;
    var states, acts := [s] + rest, [a] + more;
    forall n | 0 <= n < |acts|
      ensures Enabled(states[n], acts[n]) && OnTheWay(acts[n]) && states[n + 1] == Apply(states[n], acts[n])
    {
      assert n > 0 ==> states[n] == rest[n - 1] && acts[n] == more[n - 1] && states[n + 1] == rest[n - 1 + 1];
    }
  }

  lemma {:induction false} ServeFrom(s: Sys, i: nat, k: nat) returns (states: seq<Sys>, acts: seq<Act>)
    requires WorkersInv(s) && ReadyNow(s) && AboutToClaim(s, i, k)
    ensures ServingSchedule(states, acts) && states[0] == s
    ensures var end := states[|acts|]; end.pool.queue == [] && WorkersInv(end) && ReadyNow(end)
    decreases |s.pool.queue|, Distance(s, i, k)
  {
    hide WorkersInv, ReadyNow, Apply, Enabled, OnTheWay;
    if s.pool.queue == [] {
      states, acts := [s], [];
    } else {
      var a := NextTurn(s, i, k);
      var s' := Apply(s, a);
      var rest, more;
      if |s'.pool.queue| == |s.pool.queue| - 1 {
        ReadyHasClaimer(s');
        var j: nat, m: nat :| AboutToClaim(s', j, m);
        rest, more := ServeFrom(s', j, m);
      } else {
        rest, more := ServeFrom(s', i, k);
      }
      states, acts := [s] + rest, [a] + more;
      PrependTurn(s, a, rest, more);
    }
  }

  /**
   A ready pool can serve its whole backlog at once: some schedule made only of worker and slot goroutines
   on their way to jobs empties the queue, no busy slot has to finish for it, and the pool is still ready.
   */
  lemma ReadyServesTheBacklog(s: Sys) returns (states: seq<Sys>, acts: seq<Act>)
    requires WorkersInv(s) && ReadyNow(s)
    ensures ServingSchedule(states, acts) && states[0] == s
    ensures var end := states[|acts|]; end.pool.queue == [] && ReadyNow(end)
    ensures exists i: nat, k: nat :: AboutToClaim(states[|acts|], i, k)
  {
    ReadyHasClaimer(s);
    var i: nat, k: nat :| AboutToClaim(s, i, k);
    states, acts := ServeFrom(s, i, k);
    ReadyHasClaimer(states[|acts|]);
  }
}
