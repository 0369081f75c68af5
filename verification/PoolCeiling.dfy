/** MaxBind is no ceiling: a run with two overdue jobs on one VM, and what reap passes make of them. */
module PoolCeiling {
  import opened Wrappers
  import opened PoolSections
  import opened PoolRuns
  import opened RunnerPool
  import opened PoolPass

  function OverdueJob(bind: nat): Job {
    Job("owner/repo", 10 + bind as int, 1)
  }

  function OverdueBinding(bind: nat): SlotState {
    SlotState(1, true, OverdueJob(bind).jobID, 1, "", 0, true, 0, false, None, bind)
  }

  /** A pool with one VM of two slots and a MaxBind of 10. */
  function OneVm(queue: seq<Job>, idleSince: int, slots: seq<SlotState>, nextBind: nat, wakes: nat): PoolData {
    PoolData(queue, [WorkerState(Some("vm"), 1, idleSince, false, false, slots, None)],
             true, false, Options(1, 2, "image", 0, 0, 10, 5, "pool", 5), map[], nextBind, wakes)
  }

  function TwoQueued(): PoolData {
    OneVm([OverdueJob(1), OverdueJob(2)], 1, [EmptySlot(), EmptySlot()], 1, 0)
  }

  function OneClaimed(): PoolData {
    OneVm([OverdueJob(2)], 0, [OverdueBinding(1), EmptySlot()], 2, 1)
  }

  function TwoClaimed(): PoolData {
    OneVm([], 0, [OverdueBinding(1), OverdueBinding(2)], 3, 2)
  }

  function At(p: PoolData, pc: WorkerPc, slots: seq<SlotPc>, dispatched: seq<Job>, now: int): Sys {
    Sys(p, [Task(pc, slots)], [], now, false, true, {"vm"}, [], [OverdueJob(1), OverdueJob(2)], dispatched, [], map[])
  }

  predicate Leads(s: Sys, a: Act, s': Sys) {
    Enabled(s, a) && Apply(s, a) == s'
  }

  lemma WorkerTurns()
    ensures var (p, serving) := (TwoQueued(), Waiting("vm", None));
      && Leads(At(p, Claiming, [], [], 1), WorkerStep(0, WClaim), At(p, Spawning("vm"), [], [], 1))
      && Leads(At(p, Spawning("vm"), [], [], 1), WorkerStep(0, WSpawn), At(p, serving, [Fresh, Fresh], [], 1))
  {
    var pcs: seq<SlotPc> := seq(2, _ => Fresh);
    assert pcs == [Fresh, Fresh];
    var s := At(TwoQueued(), Spawning("vm"), [], [], 1);
    assert s.pool.Holds(0, "vm") && |s.pool.states[0].slots| == 2;
    assert Apply(s, WorkerStep(0, WSpawn)).tasks == s.tasks[0 := Task(Waiting("vm", None), seq(2, _ => Fresh))];
    assert s.tasks[0 := Task(Waiting("vm", None), [Fresh, Fresh])] == [Task(Waiting("vm", None), [Fresh, Fresh])];
  }

  lemma FreshTurns()
    ensures var (p, serving) := (TwoQueued(), Waiting("vm", None));
      && Leads(At(p, serving, [Fresh, Fresh], [], 1), SlotStep(0, 0, SClaimResume),
               At(p, serving, [Polling(None), Fresh], [], 1))
      && Leads(At(p, serving, [Polling(None), Fresh], [], 1), SlotStep(0, 1, SClaimResume),
               At(p, serving, [Polling(None), Polling(None)], [], 1))
  {
    var serving := Waiting("vm", None);
    assert [Fresh, Fresh][0 := Polling(None)] == [Polling(None), Fresh];
    assert [Polling(None), Fresh][1 := Polling(None)] == [Polling(None), Polling(None)];
    assert [Task(serving, [Fresh, Fresh])][0 := Task(serving, [Polling(None), Fresh])]
        == [Task(serving, [Polling(None), Fresh])];
    assert [Task(serving, [Polling(None), Fresh])][0 := Task(serving, [Polling(None), Polling(None)])]
        == [Task(serving, [Polling(None), Polling(None)])];
  }

  /** Slot k's goroutine claims the head of the queue. */
  lemma ClaimTurn(p: PoolData, q: PoolData, slots: seq<SlotPc>, k: nat, dispatched: seq<Job>)
    requires p.queue != [] && |p.states| == 1 && k < |p.states[0].slots| == |slots| && slots[k] == Polling(None)
    requires p.states[0].vm == Some("vm") && !p.states[0].recycle && !p.states[0].slots[k].busy && !p.shuttingDown
    requires q == ClaimJob(p, 0, k, 1)
    ensures Leads(At(p, Waiting("vm", None), slots, dispatched, 1), SlotStep(0, k, SPoll),
                  At(q, Waiting("vm", None), slots[k := Running(p.queue[0], p.nextBind)], dispatched + [p.queue[0]], 1))
  {
    var t := Task(Waiting("vm", None), slots);
    assert [t][0 := t.(slots := slots[k := Running(p.queue[0], p.nextBind)])]
        == [t.(slots := slots[k := Running(p.queue[0], p.nextBind)])];
  }

  lemma Claimed(p: PoolData, q: PoolData, k: nat)
    requires (p, q, k) == (TwoQueued(), OneClaimed(), 0) || (p, q, k) == (OneClaimed(), TwoClaimed(), 1)
    ensures ClaimJob(p, 0, k, 1) == q
  {
    assert OverdueBinding(k + 1) == SlotState(1, true, p.queue[0].jobID, p.queue[0].runID, "", 0, true, 0, false, None, p.nextBind);
    assert p.states[0].slots[k := OverdueBinding(k + 1)] == q.states[0].slots;
    assert ClaimJob(p, 0, k, 1).states[0] == q.states[0];
    assert ClaimJob(p, 0, k, 1).states == q.states;
    assert ClaimJob(p, 0, k, 1).queue == q.queue;
  }

  lemma ClaimTurns()
    ensures var serving := Waiting("vm", None);
      && Leads(At(TwoQueued(), serving, [Polling(None), Polling(None)], [], 1), SlotStep(0, 0, SPoll),
               At(OneClaimed(), serving, [Running(OverdueJob(1), 1), Polling(None)], [OverdueJob(1)], 1))
      && Leads(At(OneClaimed(), serving, [Running(OverdueJob(1), 1), Polling(None)], [OverdueJob(1)], 1), SlotStep(0, 1, SPoll),
               At(TwoClaimed(), serving, [Running(OverdueJob(1), 1), Running(OverdueJob(2), 2)],
                  [OverdueJob(1), OverdueJob(2)], 1))
  {
    Claimed(TwoQueued(), OneClaimed(), 0);
    Claimed(OneClaimed(), TwoClaimed(), 1);
    ClaimTurn(TwoQueued(), OneClaimed(), [Polling(None), Polling(None)], 0, []);
    ClaimTurn(OneClaimed(), TwoClaimed(), [Running(OverdueJob(1), 1), Polling(None)], 1, [OverdueJob(1)]);
    hide Leads, ClaimJob;
    assert [Polling(None), Polling(None)][0 := Running(OverdueJob(1), 1)] == [Running(OverdueJob(1), 1), Polling(None)];
    assert [Running(OverdueJob(1), 1), Polling(None)][1 := Running(OverdueJob(2), 2)]
        == [Running(OverdueJob(1), 1), Running(OverdueJob(2), 2)];
    assert [OverdueJob(1)] + [OverdueJob(2)] == [OverdueJob(1), OverdueJob(2)];
    assert [] + [OverdueJob(1)] == [OverdueJob(1)];
  }

  lemma Starts()
    ensures Init(At(TwoQueued(), Claiming, [], [], 1))
  {
  }

  lemma TimePasses(pc: WorkerPc, slots: seq<SlotPc>, jobs: seq<Job>)
    ensures Leads(At(TwoClaimed(), pc, slots, jobs, 1), Tick(100), At(TwoClaimed(), pc, slots, jobs, 100))
  {
  }

  lemma AtLast(pc: WorkerPc, slots: seq<SlotPc>, jobs: seq<Job>)
    ensures var s := At(TwoClaimed(), pc, slots, jobs, 100);
      s.pool == TwoClaimed() && s.now == 100 && s.hasProber && |s.tasks| == 1 && s.tasks[0].slots == slots
  {
  }

  /** A run goes on with one more act. */
  lemma Then(run: seq<Sys>, acts: seq<Act>, a: Act, s: Sys) returns (longer: seq<Sys>, more: seq<Act>)
    requires IsRun(run, acts) && |run| == |acts| + 1 && Leads(run[|acts|], a, s)
    ensures IsRun(longer, more) && |longer| == |more| + 1 && longer[|more|] == s
  {
    longer, more := run + [s], acts + [a];
    hide Init, Enabled, Apply;
    forall n | 0 <= n < |more|
      ensures Enabled(longer[n], more[n]) && longer[n + 1] == Apply(longer[n], more[n])
    {
      assert n < |acts| ==> longer[n] == run[n] && more[n] == acts[n] && longer[n + 1] == run[n + 1];
    }
  }

  lemma BeginRun(s: Sys)
    requires Init(s)
    ensures IsRun([s], [])
  {
    hide Init;
  }

  /** Two jobs are claimed on one VM, and time passes beyond MaxBind. */
  lemma TwoBecomeOverdue() returns (run: seq<Sys>, acts: seq<Act>)
    ensures IsRun(run, acts) && |run| == |acts| + 1 && run[|acts|].pool == TwoClaimed()
    ensures run[|acts|].now == 100 && run[|acts|].hasProber
    ensures |run[|acts|].tasks| == 1
    ensures run[|acts|].tasks[0].slots == [Running(OverdueJob(1), 1), Running(OverdueJob(2), 2)]
  {
    var serving := Waiting("vm", None);
    var (jobs, running) := ([OverdueJob(1), OverdueJob(2)], [Running(OverdueJob(1), 1), Running(OverdueJob(2), 2)]);
    hide IsRun, Init, Leads, At, OneVm, OverdueJob;
    Starts();
    WorkerTurns();
    FreshTurns();
    ClaimTurns();
    TimePasses(serving, running, jobs);
    AtLast(serving, running, jobs);
    run, acts := [At(TwoQueued(), Claiming, [], [], 1)], [];
    BeginRun(run[0]);
    run, acts := Then(run, acts, WorkerStep(0, WClaim), At(TwoQueued(), Spawning("vm"), [], [], 1));
    run, acts := Then(run, acts, WorkerStep(0, WSpawn), At(TwoQueued(), serving, [Fresh, Fresh], [], 1));
    run, acts := Then(run, acts, SlotStep(0, 0, SClaimResume), At(TwoQueued(), serving, [Polling(None), Fresh], [], 1));
    run, acts := Then(run, acts, SlotStep(0, 1, SClaimResume), At(TwoQueued(), serving, [Polling(None), Polling(None)], [], 1));
    run, acts := Then(run, acts, SlotStep(0, 0, SPoll),
                      At(OneClaimed(), serving, [Running(OverdueJob(1), 1), Polling(None)], [OverdueJob(1)], 1));
    run, acts := Then(run, acts, SlotStep(0, 1, SPoll), At(TwoClaimed(), serving, running, jobs, 1));
    run, acts := Then(run, acts, Tick(100), At(TwoClaimed(), serving, running, jobs, 100));
  }

  /**
   MaxBind is no ceiling for a slot: in a state of this run two jobs of one VM are past it, and after two
   passes the second still holds its slot, not cancelled, and is past MaxBind.
   */
  lemma MaxBindIsNoCeiling(probe: VmName -> Probe) returns (run: seq<Sys>, acts: seq<Act>)
    ensures IsRun(run, acts)
    ensures var (p, hasProber) := (run[|acts|].pool, run[|acts|].hasProber);
      && MayBeReaped(p, 0, 0, run[|acts|].now, hasProber, probe) && MayBeReaped(p, 0, 1, run[|acts|].now, hasProber, probe)
      && |p.states| == 1 && |p.states[0].slots| == 2
      && var twice := ReapPass(ReapPass(p, run[|acts|].now, hasProber, probe), 200, hasProber, probe);
         && |twice.states| == 1 && |twice.states[0].slots| == 2 && twice.states[0].slots[1] == p.states[0].slots[1]
         && MayBeReaped(twice, 0, 1, 200, hasProber, probe) && p.states[0].slots[1].bind !in twice.causes
  {
    run, acts := TwoBecomeOverdue();
    hide IsRun;
    TwoPasses(true, probe);
  }

  lemma TwoPasses(hasProber: bool, probe: VmName -> Probe)
    ensures var p := TwoClaimed();
      && MayBeReaped(p, 0, 0, 100, hasProber, probe) && MayBeReaped(p, 0, 1, 100, hasProber, probe)
      && var twice := ReapPass(ReapPass(p, 100, hasProber, probe), 200, hasProber, probe);
         && |twice.states| == 1 && |twice.states[0].slots| == 2 && twice.states[0].slots[1] == OverdueBinding(2)
         && MayBeReaped(twice, 0, 1, 200, hasProber, probe) && 2 !in twice.causes
  {
    var p := TwoClaimed();
    assert WarningsSettled(p) && BindsDistinct(p);
    OverdueIsJustified(p, 0, 100, hasProber, probe);
    assert MayBeReaped(p, 0, 0, 100, hasProber, probe) && MayBeReaped(p, 0, 1, 100, hasProber, probe);
    SecondOverdueSlotKeepsItsJob(p, 100, hasProber, probe, 0, 0, 1, 200, probe);
    PassSettles(p, 100, hasProber, probe);
    MarkedIffOverdue(p, 100, hasProber, probe, 0);
    MarkedIffOverdue(ReapPass(p, 100, hasProber, probe), 200, hasProber, probe, 0);
    hide ReapPass;
  }
}
