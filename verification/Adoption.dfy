/** How a restarted host finds the running VMs again and what its pool then starts from. */
module Adoption {
  import opened Wrappers
  import opened PoolSections
  import opened AdoptionSections
  import opened PoolOutcomes
  import opened Sorting
  import R = RegistrySections
  import RunnerPool
  import Runs = PoolRuns
  import D = Delivery
  import DS = DeliverySafety

  /** A VM the hypervisor lists. */
  datatype VmEntry = VmEntry(name: VmName, running: bool)

  function NameOf(name: VmName): string {
    name
  }

  predicate IsCandidate(e: VmEntry, prefix: string) {
    prefix <= e.name && e.running
  }

  function CandidateNames(entries: seq<VmEntry>, prefix: string): seq<VmName> {
    if entries == [] then []
    else
      var last := entries[|entries| - 1];
      CandidateNames(entries[..|entries| - 1], prefix) + if IsCandidate(last, prefix) then [last.name] else []
  }

  /** What the guests of the candidates answer: unreachable ones nothing, the others their listing. */
  type Answers = VmName -> Option<seq<R.ListEntry>>

  function SlotsOf(answers: Answers, slotCount: nat, name: VmName): seq<SlotBinding>
    requires answers(name).Some?
  {
    ReattachSlots(answers(name).value, slotCount)
  }

  /** The reachable VMs among `names` that run something, or that run nothing, in the given order. */
  function Pick(names: seq<VmName>, answers: Answers, slotCount: nat, busy: bool): seq<AdoptedVM> {
    if names == [] then []
    else
      var last := names[|names| - 1];
      var before := Pick(names[..|names| - 1], answers, slotCount, busy);
      if answers(last).Some? && (SlotsOf(answers, slotCount, last) != []) == busy
      then before + [AdoptedVM(Some(last), SlotsOf(answers, slotCount, last))]
      else before
  }

  /** How many of `available` fit when `taken` are chosen already; a negative limit means no limit. */
  function Room(limit: int, taken: nat, available: nat): (n: nat)
    ensures n <= available
  {
    if limit < 0 || taken + available <= limit then available
    else if taken >= limit then 0
    else limit - taken
  }

  // ----- the host's loops -------------------------------------------------------------------

  method ReattachSlotsOf(entries: seq<R.ListEntry>, slotCount: nat) returns (bindings: seq<SlotBinding>)
    ensures bindings == ReattachSlots(entries, slotCount)
  {
    bindings := [];
    for i := 0 to |entries|
      invariant bindings == ReattachSlots(entries[..i], slotCount)
    {
      assert entries[..i + 1][..i] == entries[..i];
      if !entries[i].running { continue; }
      if entries[i].slot < 0 || entries[i].slot >= slotCount { continue; }
      bindings := bindings + [BindingOf(entries[i])];
    }
    assert entries[..|entries|] == entries;
  }

  method ListCandidates(entries: seq<VmEntry>, prefix: string) returns (names: seq<VmName>)
    ensures names == CandidateNames(entries, prefix)
  {
    names := [];
    for i := 0 to |entries|
      invariant names == CandidateNames(entries[..i], prefix)
    {
      assert entries[..i + 1][..i] == entries[..i];
      if !(prefix <= entries[i].name) { continue; }
      if !entries[i].running { continue; }
      names := names + [entries[i].name];
    }
    assert entries[..|entries|] == entries;
  }

  method SplitCandidates(names: seq<VmName>, answers: Answers, slotCount: nat)
    returns (busy: seq<AdoptedVM>, idle: seq<AdoptedVM>)
    ensures busy == Pick(names, answers, slotCount, true) && idle == Pick(names, answers, slotCount, false)
  {
    busy, idle := [], [];
    for i := 0 to |names|
      invariant busy == Pick(names[..i], answers, slotCount, true)
      invariant idle == Pick(names[..i], answers, slotCount, false)
    {
      assert names[..i + 1][..i] == names[..i];
      if answers(names[i]).None? { continue; }
      var slots := ReattachSlotsOf(answers(names[i]).value, slotCount);
      if |slots| > 0 {
        busy := busy + [AdoptedVM(Some(names[i]), slots)];
        continue;
      }
      idle := idle + [AdoptedVM(Some(names[i]), slots)];
    }
    assert names[..|names|] == names;
  }

  /** Busy VMs first, then idle ones, up to the limit; the idle VMs left over are torn down. */
  method Select(busy: seq<AdoptedVM>, idle: seq<AdoptedVM>, limit: int)
    returns (adopted: seq<AdoptedVM>, torn: seq<AdoptedVM>)
    ensures var kept := Room(limit, Room(limit, 0, |busy|), |idle|);
      adopted == busy[..Room(limit, 0, |busy|)] + idle[..kept] && torn == idle[kept..]
  {
    adopted, torn := [], [];
    for i := 0 to |busy|
      invariant adopted == busy[..Room(limit, 0, i)]
    {
      if limit < 0 || |adopted| < limit {
        adopted := adopted + [busy[i]];
      }
    }
    ghost var first := adopted;
    ghost var kept := 0;
    for i := 0 to |idle|
      invariant kept == Room(limit, |first|, i)
      invariant adopted == first + idle[..kept] && torn == idle[kept..i]
    {
      if limit < 0 || |adopted| < limit {
        adopted := adopted + [idle[i]];
        kept := kept + 1;
        continue;
      }
      torn := torn + [idle[i]];
    }
  }

  datatype Choice = Choice(adopted: seq<AdoptedVM>, torn: seq<AdoptedVM>)

  function Choose(entries: seq<VmEntry>, prefix: string, answers: Answers, slotCount: int, limit: int): Choice {
    var names := SortBy(CandidateNames(entries, prefix), NameOf);
    var busy := Pick(names, answers, NormalizeSlotCount(slotCount), true);
    var idle := Pick(names, answers, NormalizeSlotCount(slotCount), false);
    var kept := Room(limit, Room(limit, 0, |busy|), |idle|);
    Choice(busy[..Room(limit, 0, |busy|)] + idle[..kept], idle[kept..])
  }

  method Adopt(entries: seq<VmEntry>, prefix: string, answers: Answers, slotCount: int, limit: int)
    returns (adopted: seq<AdoptedVM>, torn: seq<AdoptedVM>)
    ensures Choice(adopted, torn) == Choose(entries, prefix, answers, slotCount, limit)
  {
    var found := ListCandidates(entries, prefix);
    var names := SortBy(found, NameOf);
    var busy, idle := SplitCandidates(names, answers, NormalizeSlotCount(slotCount));
    adopted, torn := Select(busy, idle, limit);
  }

  // ----- what adoption guarantees -----------------------------------------------------------

  /** A VM that answered the probe, with the bindings of its answer. */
  predicate Reported(answers: Answers, slotCount: nat, a: AdoptedVM) {
    && a.vm.Some? && answers(a.vm.value).Some?
    && a.slots == SlotsOf(answers, slotCount, a.vm.value)
  }

  lemma {:induction false} PickExact(names: seq<VmName>, answers: Answers, slotCount: nat, busy: bool)
    ensures forall a :: a in Pick(names, answers, slotCount, busy) ==>
              Reported(answers, slotCount, a) && a.vm.value in names && ((a.slots != []) == busy)
    ensures forall name :: name in names && answers(name).Some? && ((SlotsOf(answers, slotCount, name) != []) == busy) ==>
              AdoptedVM(Some(name), SlotsOf(answers, slotCount, name)) in Pick(names, answers, slotCount, busy)
  {
    if names != [] {
      PickExact(names[..|names| - 1], answers, slotCount, busy);
    }
  }

  /** Whom Pick keeps stays in order. */
  lemma {:induction false} PickOrdered(names: seq<VmName>, answers: Answers, slotCount: nat, busy: bool)
    requires Sorted(names, NameOf) && forall i, j :: 0 <= i < j < |names| ==> names[i] != names[j]
    ensures var picked := Pick(names, answers, slotCount, busy);
      forall i, j :: 0 <= i < j < |picked| ==>
        && picked[i].vm.Some? && picked[j].vm.Some?
        && Leq(picked[i].vm.value, picked[j].vm.value) && picked[i].vm != picked[j].vm
  {
    if names != [] {
      var before := names[..|names| - 1];
      PickOrdered(before, answers, slotCount, busy);
      PickExact(before, answers, slotCount, busy);
      assert forall a :: a in Pick(before, answers, slotCount, busy) ==>
               exists i :: 0 <= i < |before| && names[i] == a.vm.value;
    }
  }

  lemma {:induction false} ReattachSlotsExact(entries: seq<R.ListEntry>, slotCount: nat)
    ensures forall b :: b in ReattachSlots(entries, slotCount) <==>
              exists i :: 0 <= i < |entries| && Occupies(entries[i], slotCount) && b == BindingOf(entries[i])
  {
    if entries != [] {
      var before := entries[..|entries| - 1];
      ReattachSlotsExact(before, slotCount);
      forall b | b in ReattachSlots(before, slotCount)
        ensures exists i :: 0 <= i < |entries| && Occupies(entries[i], slotCount) && b == BindingOf(entries[i])
      {
        var i :| 0 <= i < |before| && Occupies(before[i], slotCount) && b == BindingOf(before[i]);
        assert entries[i] == before[i];
      }
      forall i | 0 <= i < |before| && Occupies(entries[i], slotCount)
        ensures BindingOf(entries[i]) in ReattachSlots(before, slotCount)
      {
        assert before[i] == entries[i];
      }
    }
  }

  // The candidates Adopt considers: listed, running, named like a pool VM and answering.
  ghost predicate Considered(entries: seq<VmEntry>, prefix: string, answers: Answers, name: VmName) {
    (exists i :: ListedAs(entries, prefix, name, i)) && answers(name).Some?
  }

  /** The VM's guest runs an execution on a slot the pool knows. */
  predicate RunsSomething(answers: Answers, slotCount: nat, name: VmName)
    requires answers(name).Some?
  {
    exists i :: 0 <= i < |answers(name).value| && answers(name).value[i].running && answers(name).value[i].slot < slotCount
  }

  predicate ListedAs(entries: seq<VmEntry>, prefix: string, name: VmName, i: nat) {
    i < |entries| && entries[i].running && prefix <= entries[i].name && entries[i].name == name
  }

  lemma {:induction false} CandidateIsListed(entries: seq<VmEntry>, prefix: string, name: VmName)
    ensures name in CandidateNames(entries, prefix) <==> exists i :: ListedAs(entries, prefix, name, i)
  {
    if entries != [] {
      var before := entries[..|entries| - 1];
      CandidateIsListed(before, prefix, name);
      assert forall i: nat :: ListedAs(before, prefix, name, i) ==> ListedAs(entries, prefix, name, i);
      assert forall i: nat :: ListedAs(entries, prefix, name, i) && i < |before| ==> ListedAs(before, prefix, name, i);
      assert IsCandidate(entries[|before|], prefix) && entries[|before|].name == name ==>
               ListedAs(entries, prefix, name, |before|);
    }
  }

  lemma {:induction false} CandidatesDistinct(entries: seq<VmEntry>, prefix: string)
    requires DistinctNames(entries)
    ensures Distinct(CandidateNames(entries, prefix))
  {
    if entries != [] {
      var before := entries[..|entries| - 1];
      CandidatesDistinct(before, prefix);
      CandidateIsListed(before, prefix, entries[|before|].name);
    }
  }

  predicate DistinctNames(entries: seq<VmEntry>) {
    forall i, j :: 0 <= i < j < |entries| ==> entries[i].name != entries[j].name
  }

  lemma BusyMeansRuns(answers: Answers, slotCount: nat, name: VmName)
    requires answers(name).Some?
    ensures SlotsOf(answers, slotCount, name) != [] <==> RunsSomething(answers, slotCount, name)
  {
    var entries := answers(name).value;
    ReattachSlotsExact(entries, slotCount);
    if SlotsOf(answers, slotCount, name) != [] {
      assert SlotsOf(answers, slotCount, name)[0] in ReattachSlots(entries, slotCount);
    }
    if RunsSomething(answers, slotCount, name) {
      var i :| 0 <= i < |entries| && Occupies(entries[i], slotCount);
      assert BindingOf(entries[i]) in ReattachSlots(entries, slotCount);
    }
  }

  /** No two places of a sequence hold the same element. */
  predicate Distinct<T(==)>(s: seq<T>) {
    forall i, j :: 0 <= i < j < |s| ==> s[i] != s[j]
  }

  lemma {:induction false} DistinctCounts<T>(s: seq<T>, x: T)
    requires Distinct(s)
    ensures multiset(s)[x] <= 1
  {
    if s != [] {
      var before := s[..|s| - 1];
      DistinctCounts(before, x);
      assert s == before + [s[|s| - 1]];
      assert x == s[|s| - 1] ==> x !in before;
    }
  }

  lemma DistinctPermutes<T>(a: seq<T>, b: seq<T>)
    requires Distinct(a) && multiset(a) == multiset(b)
    ensures Distinct(b)
  {
    forall i, j | 0 <= i < j < |b|
      ensures b[i] != b[j]
    {
      DistinctCounts(a, b[j]);
      assert b == b[..j] + b[j..];
      assert b[i] in b[..j] && b[j] in b[j..];
    }
  }

  /** A is to be adopted before b: busy before idle, then by name. */
  predicate Before(a: AdoptedVM, b: AdoptedVM) {
    && a.vm.Some? && b.vm.Some? && a.vm != b.vm
    && if (a.slots != []) == (b.slots != []) then Leq(a.vm.value, b.vm.value) else a.slots != []
  }

  predicate InOrder(list: seq<AdoptedVM>) {
    forall i, j :: 0 <= i < j < |list| ==> Before(list[i], list[j])
  }

  /** Every reachable candidate VM, in the order of adoption. */
  function Ranking(entries: seq<VmEntry>, prefix: string, answers: Answers, slotCount: int): seq<AdoptedVM> {
    var names := SortBy(CandidateNames(entries, prefix), NameOf);
    Pick(names, answers, NormalizeSlotCount(slotCount), true)
    + Pick(names, answers, NormalizeSlotCount(slotCount), false)
  }

  lemma NamesAreCandidates(entries: seq<VmEntry>, prefix: string)
    requires DistinctNames(entries)
    ensures var names := SortBy(CandidateNames(entries, prefix), NameOf);
      && Sorted(names, NameOf) && Distinct(names)
      && forall name :: name in names <==> exists i :: ListedAs(entries, prefix, name, i)
  {
    var found := CandidateNames(entries, prefix);
    var names := SortBy(found, NameOf);
    CandidatesDistinct(entries, prefix);
    SortBySorts(found, NameOf);
    DistinctPermutes(found, names);
    forall name
      ensures name in names <==> exists i :: ListedAs(entries, prefix, name, i)
    {
      CandidateIsListed(entries, prefix, name);
      assert name in names <==> name in multiset(names);
      assert name in found <==> name in multiset(found);
    }
  }

  lemma BusyThenIdle(busy: seq<AdoptedVM>, idle: seq<AdoptedVM>)
    requires InOrder(busy) && InOrder(idle)
    requires forall a :: a in busy ==> a.vm.Some? && a.slots != []
    requires forall a :: a in idle ==> a.vm.Some? && a.slots == []
    requires forall a, b :: a in busy && b in idle ==> a.vm != b.vm
    ensures InOrder(busy + idle)
  {
    var list := busy + idle;
    forall i, j | 0 <= i < j < |list|
      ensures Before(list[i], list[j])
    {
      assert list[i] == if i < |busy| then busy[i] else idle[i - |busy|];
      assert list[j] == if j < |busy| then busy[j] else idle[j - |busy|];
      if i < |busy| <= j {
        assert busy[i] in busy && idle[j - |busy|] in idle;
      }
    }
  }

  lemma PickInOrder(names: seq<VmName>, answers: Answers, slotCount: nat, busy: bool)
    requires Sorted(names, NameOf) && Distinct(names)
    ensures InOrder(Pick(names, answers, slotCount, busy))
  {
    PickOrdered(names, answers, slotCount, busy);
    PickExact(names, answers, slotCount, busy);
    var picked := Pick(names, answers, slotCount, busy);
    assert forall i :: 0 <= i < |picked| ==> picked[i] in picked;
  }

  /** The ranking holds every reachable running pool VM once, busy ones first, each group sorted by name. */
  lemma RankingIsExact(entries: seq<VmEntry>, prefix: string, answers: Answers, slotCount: int)
    requires DistinctNames(entries)
    ensures var (ranking, n) := (Ranking(entries, prefix, answers, slotCount), if slotCount < 1 then 1 else slotCount);
      && InOrder(ranking)
      && (forall a :: a in ranking ==>
            && Reported(answers, n, a) && Considered(entries, prefix, answers, a.vm.value)
            && (a.slots != [] <==> RunsSomething(answers, n, a.vm.value)))
      && (forall name :: Considered(entries, prefix, answers, name) ==>
            AdoptedVM(Some(name), SlotsOf(answers, n, name)) in ranking)
  {
    var n := NormalizeSlotCount(slotCount);
    var names := SortBy(CandidateNames(entries, prefix), NameOf);
    NamesAreCandidates(entries, prefix);
    var busy, idle := Pick(names, answers, n, true), Pick(names, answers, n, false);
    PickExact(names, answers, n, true);
    PickExact(names, answers, n, false);
    PickInOrder(names, answers, n, true);
    PickInOrder(names, answers, n, false);
    hide Pick, ReattachSlots;
    BusyThenIdle(busy, idle);
    forall a | a in busy + idle
      ensures Reported(answers, n, a) && Considered(entries, prefix, answers, a.vm.value)
      ensures a.slots != [] <==> RunsSomething(answers, n, a.vm.value)
    {
      BusyMeansRuns(answers, n, a.vm.value);
    }
  }

  /**
   What Adopt keeps is a prefix of the ranking, the whole of it unless the limit cuts it short; what it
   tears down are the VMs behind that prefix that run nothing. So a busy VM beyond the limit is neither
   adopted nor torn down.
   */
  lemma AdoptTakesThePrefix(entries: seq<VmEntry>, prefix: string, answers: Answers, slotCount: int, limit: int)
    requires DistinctNames(entries)
    ensures var c := Choose(entries, prefix, answers, slotCount, limit);
      var ranking := Ranking(entries, prefix, answers, slotCount);
      && c.adopted <= ranking
      && |c.adopted| == (if limit < 0 || |ranking| <= limit then |ranking| else limit)
      && (forall a :: a in c.torn <==> a in ranking && a !in c.adopted && a.slots == [])
  {
    RankingIsExact(entries, prefix, answers, slotCount);
    var n := NormalizeSlotCount(slotCount);
    var names := SortBy(CandidateNames(entries, prefix), NameOf);
    var busy, idle := Pick(names, answers, n, true), Pick(names, answers, n, false);
    PickExact(names, answers, n, true);
    PickExact(names, answers, n, false);
    hide Pick, ReattachSlots, Considered, RunsSomething;
    PrefixChosen(busy, idle, limit);
  }

  lemma PrefixChosen(busy: seq<AdoptedVM>, idle: seq<AdoptedVM>, limit: int)
    requires InOrder(busy + idle)
    requires (forall a :: a in busy ==> a.slots != []) && (forall a :: a in idle ==> a.slots == [])
    ensures var kept := Room(limit, Room(limit, 0, |busy|), |idle|);
      var adopted := busy[..Room(limit, 0, |busy|)] + idle[..kept];
      && adopted <= busy + idle
      && |adopted| == (if limit < 0 || |busy + idle| <= limit then |busy + idle| else limit)
      && (forall a :: a in idle[kept..] <==> a in busy + idle && a !in adopted && a.slots == [])
  {
    var ranking := busy + idle;
    var kept := Room(limit, Room(limit, 0, |busy|), |idle|);
    var adopted := busy[..Room(limit, 0, |busy|)] + idle[..kept];
    assert adopted == ranking[..|adopted|];
    assert kept > 0 ==> Room(limit, 0, |busy|) == |busy|;
    forall a | a in idle[kept..]
      ensures a !in adopted
    {
      var j :| kept <= j < |idle| && idle[j] == a;
      assert ranking[|busy| + j] == a;
      forall i | 0 <= i < |adopted|
        ensures adopted[i] != a
      {
        assert adopted[i] == ranking[i] && Before(ranking[i], ranking[|busy| + j]);
      }
    }
  }

  // ----- what the guest's listing means for the pool ----------------------------------------

  predicate RunningSlotsDiffer(entries: seq<R.ListEntry>) {
    forall i, j :: 0 <= i < j < |entries| && entries[i].running && entries[j].running ==>
      entries[i].slot != entries[j].slot
  }

  predicate SlotIndicesDiffer(bindings: seq<SlotBinding>) {
    forall i, j :: 0 <= i < j < |bindings| ==> bindings[i].slotIndex != bindings[j].slotIndex
  }

  lemma {:induction false} ReattachedSlotsDiffer(entries: seq<R.ListEntry>, slotCount: nat)
    requires RunningSlotsDiffer(entries)
    ensures SlotIndicesDiffer(ReattachSlots(entries, slotCount))
  {
    if entries != [] {
      var before := entries[..|entries| - 1];
      ReattachedSlotsDiffer(before, slotCount);
      ReattachSlotsExact(before, slotCount);
      var bindings := ReattachSlots(before, slotCount);
      forall i | 0 <= i < |bindings| && Occupies(entries[|before|], slotCount)
        ensures bindings[i].slotIndex != entries[|before|].slot
      {
        assert bindings[i] in bindings;
      }
    }
  }

  lemma RunningSlotsDifferPermutes(a: seq<R.ListEntry>, b: seq<R.ListEntry>)
    requires RunningSlotsDiffer(a) && Distinct(a) && multiset(a) == multiset(b)
    ensures RunningSlotsDiffer(b)
  {
    DistinctPermutes(a, b);
    forall i, j | 0 <= i < j < |b| && b[i].running && b[j].running
      ensures b[i].slot != b[j].slot
    {
      assert b[i] in multiset(a) && b[j] in multiset(a);
      var m :| 0 <= m < |a| && a[m] == b[i];
      var n :| 0 <= n < |a| && a[n] == b[j];
    }
  }

  /** A guest's List reads every execution at its own moment; still no two running entries share a slot. */
  lemma SortedRunningSlotsDiffer(run: seq<D.Sys>, acts: seq<D.Act>, n: nat, j: nat)
    requires D.IsRun(run, acts) && n < |run| && j < |run[n].listings|
    ensures RunningSlotsDiffer(SortBy(run[n].listings[j].entries, R.EntryId))
  {
    var entries := run[n].listings[j].entries;
    forall a, b | 0 <= a < b < |entries|
      ensures entries[a].id != entries[b].id
      ensures entries[a].running && entries[b].running ==> entries[a].slot != entries[b].slot
    {
      DS.ListedEntriesDiffer(run, acts, n, j, a, b);
    }
    hide D.IsRun;
    SortBySorts(entries, R.EntryId);
    RunningSlotsDifferPermutes(entries, SortBy(entries, R.EntryId));
  }

  /** The bindings a restarted host derives from a guest's listing name every slot at most once. */
  lemma AdoptedSlotsDiffer(run: seq<D.Sys>, acts: seq<D.Act>, n: nat, j: nat, slotCount: nat)
    requires D.IsRun(run, acts) && n < |run| && j < |run[n].listings|
    ensures SlotIndicesDiffer(ReattachSlots(SortBy(run[n].listings[j].entries, R.EntryId), slotCount))
  {
    SortedRunningSlotsDiffer(run, acts, n, j);
    hide D.IsRun;
    ReattachedSlotsDiffer(SortBy(run[n].listings[j].entries, R.EntryId), slotCount);
  }

  /** Some binding takes slot k of a worker with n slots. */
  predicate Taken(bindings: seq<SlotBinding>, n: nat, k: int) {
    exists j :: 0 <= j < |bindings| && Fits(bindings[j], n) && bindings[j].slotIndex == k
  }

  /** With distinct slot indices an installed slot is busy exactly when a binding names it, and then as that binding says. */
  lemma {:induction false} InstalledSlotsAreTheBindings(bindings: seq<SlotBinding>, n: nat, now: int, base: nat)
    requires SlotIndicesDiffer(bindings)
    ensures var slots := BindSlots(bindings, n, now, base);
      && (forall j :: 0 <= j < |bindings| && Fits(bindings[j], n) ==>
            && slots[bindings[j].slotIndex].busy && slots[bindings[j].slotIndex].adopted
            && slots[bindings[j].slotIndex].executionID == bindings[j].executionID
            && slots[bindings[j].slotIndex].resumeCursor == bindings[j].resumeCursor
            && slots[bindings[j].slotIndex].jobID == bindings[j].jobID
            && slots[bindings[j].slotIndex].runID == bindings[j].runID)
      && (forall k :: 0 <= k < n ==> (slots[k].busy <==> Taken(bindings, n, k)))
  {
    forall k | 0 <= k < n
      ensures var slot := BindSlots(bindings, n, now, base)[k];
        && (slot.busy <==> exists j :: Decides(bindings, n, k, j))
        && (forall j :: Decides(bindings, n, k, j) ==> slot == BoundSlot(bindings[j], now, base + j))
    {
      BindSlotsExact(bindings, n, now, base, k);
    }
    hide BindSlots;
    forall j | 0 <= j < |bindings| && Fits(bindings[j], n)
      ensures Decides(bindings, n, bindings[j].slotIndex, j)
    {
    }
  }

  /** The adopted entries that name a VM, in order. */
  function Live(adopted: seq<AdoptedVM>): (live: seq<AdoptedVM>)
    ensures forall t :: 0 <= t < |live| ==> live[t].vm.Some?
  {
    if adopted == [] then []
    else if adopted[0].vm.None? then Live(adopted[1..])
    else [adopted[0]] + Live(adopted[1..])
  }

  /** Worker next + t gets the t-th of them, and no other worker is touched. */
  lemma {:induction false} InstallPlaces(p: PoolData, adopted: seq<AdoptedVM>, next: nat, now: int, i: nat) returns (base: nat)
    requires i < |p.states|
    ensures var (q, live) := (Install(p, adopted, next, now), Live(adopted));
      && |q.states| == |p.states|
      && q.states[i] == if next <= i < next + |live|
                        then InstalledWorker(live[i - next].vm.value, live[i - next].slots, SlotCountOf(p), now, base)
                        else p.states[i]
    decreases |adopted|
  {
    base := 0;
    if adopted != [] && next < |p.states| {
      if adopted[0].vm.None? {
        base := InstallPlaces(p, adopted[1..], next, now, i);
      } else {
        var w := InstalledWorker(adopted[0].vm.value, adopted[0].slots, SlotCountOf(p), now, p.nextBind);
        var p' := p.(states := p.states[next := w], nextBind := p.nextBind + |adopted[0].slots|);
        assert p' == p.Set(next, w).(nextBind := p.nextBind + |adopted[0].slots|) && SlotCountOf(p') == SlotCountOf(p);
        hide InstalledWorker;
        base := InstallPlaces(p', adopted[1..], next + 1, now, i);
        if i == next { base := p.nextBind; }
      }
    }
  }

  /** A worker with n slots binds this one to slot k: it has one, and the binding shows an active job. */
  predicate Lands(b: SlotBinding, n: int, k: int) {
    b.slotIndex == k && 0 <= k < n && (b.observedActive || (b.jobID > 0 && b.runID > 0))
  }

  predicate SlotCarries(slot: SlotState, b: SlotBinding, now: int) {
    && slot.busy && slot.adopted && !slot.jobCancel && slot.reapWarnedAt == 0 && slot.lastErr == None
    && slot.executionID == b.executionID && slot.resumeCursor == b.resumeCursor
    && slot.jobID == b.jobID && slot.runID == b.runID && slot.boundAt == if b.boundAt == 0 then now else b.boundAt
  }

  /** The worker serves this adopted VM since now, its slots busy with exactly the VM's bindings. */
  predicate Serves(w: WorkerState, a: AdoptedVM, n: int, now: int) {
    && w.vm == a.vm && w.bornAt == now && !w.recycle && !w.warming && w.lastErr == None && |w.slots| == n
    && (forall j, k :: 0 <= j < |a.slots| && 0 <= k < |w.slots| && Lands(a.slots[j], n, k) ==>
          SlotCarries(w.slots[k], a.slots[j], now))
    && (forall k :: 0 <= k < |w.slots| ==>
          if exists j :: 0 <= j < |a.slots| && Lands(a.slots[j], n, k) then w.slots[k].busy else IsFree(w.slots[k], None))
    && w.idleSince == if exists k :: 0 <= k < |w.slots| && w.slots[k].busy then 0 else now
  }

  lemma InstalledServes(vm: VmName, bindings: seq<SlotBinding>, n: nat, now: int, base: nat)
    requires SlotIndicesDiffer(bindings)
    ensures Serves(InstalledWorker(vm, bindings, n, now, base), AdoptedVM(Some(vm), bindings), n, now)
  {
    var w := InstalledWorker(vm, bindings, n, now, base);
    BusyIffAnyFits(bindings, n, now, base);
    forall k | 0 <= k < n
      ensures w.slots[k].busy <==> exists j :: Decides(bindings, n, k, j)
      ensures !w.slots[k].busy ==> w.slots[k] == EmptySlot()
      ensures forall j :: Decides(bindings, n, k, j) ==> w.slots[k] == BoundSlot(bindings[j], now, base + j)
    {
      BindSlotsExact(bindings, n, now, base, k);
    }
    hide BindSlots;
    assert forall j, k :: 0 <= j < |bindings| && 0 <= k < n && Lands(bindings[j], n, k) ==> Decides(bindings, n, k, j);
    assert forall k, j :: 0 <= k < n && Decides(bindings, n, k, j) ==> Lands(bindings[j], n, k);
  }

  /**
   In the pool that Start leaves, worker i serves the i-th adopted VM, and its slots are busy exactly on
   that VM's bindings, under their ids and with their cursors; workers without a VM are as they were.
   */
  lemma WorkersGetTheirVms(p: PoolData, adopted: seq<AdoptedVM>, now: int, i: nat)
    requires i < |p.states|
    requires i < |Live(adopted)| ==> SlotIndicesDiffer(Live(adopted)[i].slots)
    ensures var q := Install(p, adopted, 0, now);
      && |q.states| == |p.states|
      && if i >= |Live(adopted)| then q.states[i] == p.states[i]
         else Serves(q.states[i], Live(adopted)[i], if p.options.jobsPerVM < 0 then 0 else p.options.jobsPerVM, now)
  {
    var base := InstallPlaces(p, adopted, 0, now, i);
    if i < |Live(adopted)| {
      var a := Live(adopted)[i];
      InstalledServes(a.vm.value, a.slots, SlotCountOf(p), now, base);
      assert AdoptedVM(Some(a.vm.value), a.slots) == a;
      hide BindSlots, Serves;
    }
    hide Install, Live, InstalledWorker;
  }

  // ----- the pool a restart begins with -----------------------------------------------------

  predicate Blank(w: WorkerState) {
    w == WorkerState(None, 0, 0, false, false, w.slots, None) && forall k :: 0 <= k < |w.slots| ==> w.slots[k] == EmptySlot()
  }

  predicate Installed(w: WorkerState, nextBind: nat) {
    && w.vm.Some? && !w.warming && !w.recycle && (w.idleSince == 0 <==> Busy(w))
    && forall k :: 0 <= k < |w.slots| ==>
         && !w.slots[k].jobCancel && w.slots[k].reapWarnedAt == 0
         && (w.slots[k].busy ==> w.slots[k].adopted && w.slots[k].bind < nextBind)
  }

  predicate AdoptedDistinct(adopted: seq<AdoptedVM>) {
    forall i, j :: 0 <= i < j < |adopted| && adopted[i].vm.Some? ==> adopted[i].vm != adopted[j].vm
  }

  ghost predicate Progress(p: PoolData, adopted: seq<AdoptedVM>, next: nat) {
    && next <= |p.states| && AdoptedDistinct(adopted)
    && (forall i :: 0 <= i < next ==> Installed(p.states[i], p.nextBind))
    && (forall i :: next <= i < |p.states| ==> Blank(p.states[i]))
    && (forall i, j :: 0 <= i < j < next ==> p.states[i].vm != p.states[j].vm)
    && (forall i, a :: 0 <= i < next && a in adopted && a.vm.Some? ==> p.states[i].vm != a.vm)
    && Runs.BindsDistinct(p)
  }

  lemma BusyIffAnyFits(bindings: seq<SlotBinding>, n: nat, now: int, base: nat)
    ensures AnyFits(bindings, n) <==> exists k :: 0 <= k < n && BindSlots(bindings, n, now, base)[k].busy
  {
    if AnyFits(bindings, n) {
      var j :| 0 <= j < |bindings| && Fits(bindings[j], n);
      var last := LastFor(bindings, n, bindings[j].slotIndex, j);
      BindSlotsExact(bindings, n, now, base, bindings[j].slotIndex);
    }
    forall k | 0 <= k < n && BindSlots(bindings, n, now, base)[k].busy
      ensures AnyFits(bindings, n)
    {
      BindSlotsExact(bindings, n, now, base, k);
    }
  }

  /** The last of the bindings that take slot k. */
  lemma LastFor(bindings: seq<SlotBinding>, n: nat, k: int, j: nat) returns (last: nat)
    requires j < |bindings| && Fits(bindings[j], n) && bindings[j].slotIndex == k
    ensures Decides(bindings, n, k, last)
    decreases |bindings| - j
  {
    last := j;
    if !Decides(bindings, n, k, j) {
      var i :| j < i < |bindings| && Fits(bindings[i], n) && bindings[i].slotIndex == k;
      last := LastFor(bindings, n, k, i);
    }
  }

  /** An installed worker's idle clock runs exactly while no slot is busy. */
  lemma IdleIffFree(vm: VmName, bindings: seq<SlotBinding>, n: nat, now: int, base: nat)
    requires now > 0
    ensures var w := InstalledWorker(vm, bindings, n, now, base); w.idleSince == 0 <==> Busy(w)
  {
    var w := InstalledWorker(vm, bindings, n, now, base);
    assert w.slots == BindSlots(bindings, n, now, base) && |w.slots| == n;
    BusyIffAnyFits(bindings, n, now, base);
    hide BindSlots, AnyFits;
    if AnyFits(bindings, n) {
      var k :| 0 <= k < n && BindSlots(bindings, n, now, base)[k].busy;
      assert w.slots[k].busy;
    }
    if Busy(w) {
      var k :| 0 <= k < |w.slots| && w.slots[k].busy;
      assert BindSlots(bindings, n, now, base)[k].busy;
    }
  }

  lemma WorkerIsInstalled(vm: VmName, bindings: seq<SlotBinding>, n: nat, now: int, base: nat)
    requires now > 0
    ensures Installed(InstalledWorker(vm, bindings, n, now, base), base + |bindings|)
    ensures var slots := BindSlots(bindings, n, now, base);
      && |slots| == n
      && (forall k :: 0 <= k < n && slots[k].busy ==> slots[k].bind >= base)
      && (forall k, m :: 0 <= k < m < n && slots[k].busy && slots[m].busy ==> slots[k].bind != slots[m].bind)
  {
    var slots := BindSlots(bindings, n, now, base);
    forall k | 0 <= k < n
      ensures !slots[k].jobCancel && slots[k].reapWarnedAt == 0
      ensures slots[k].busy ==> slots[k].adopted && base <= slots[k].bind < base + |bindings|
      ensures slots[k].busy ==> bindings[slots[k].bind - base].slotIndex == k
    {
      BindSlotsExact(bindings, n, now, base, k);
      if slots[k].busy {
        var j :| Decides(bindings, n, k, j);
      }
    }
    assert |slots| == n;
    IdleIffFree(vm, bindings, n, now, base);
    hide BindSlots, AnyFits;
  }

  function InstallOne(p: PoolData, a: AdoptedVM, next: nat, now: int): PoolData
    requires next < |p.states| && a.vm.Some?
  {
    p.Set(next, InstalledWorker(a.vm.value, a.slots, SlotCountOf(p), now, p.nextBind))
      .(nextBind := p.nextBind + |a.slots|)
  }

  lemma BindsStayDistinct(p: PoolData, q: PoolData, next: nat)
    requires Runs.BindsDistinct(p) && next < |p.states| && |q.states| == |p.states|
    requires forall i :: 0 <= i < |p.states| && i != next ==> q.states[i] == p.states[i]
    requires forall i :: 0 <= i < next ==> Installed(p.states[i], p.nextBind)
    requires forall i :: next < i < |p.states| ==> !Busy(p.states[i])
    requires forall k :: 0 <= k < |q.states[next].slots| && q.states[next].slots[k].busy ==>
               q.states[next].slots[k].bind >= p.nextBind
    requires forall k, m :: 0 <= k < m < |q.states[next].slots| ==>
               (q.states[next].slots[k].busy && q.states[next].slots[m].busy ==>
                  q.states[next].slots[k].bind != q.states[next].slots[m].bind)
    ensures Runs.BindsDistinct(q)
  {
    forall i: nat, k: nat, j: nat, m: nat |
      Runs.BusyAt(q, i, k) && Runs.BusyAt(q, j, m) && (i, k) != (j, m)
      ensures q.states[i].slots[k].bind != q.states[j].slots[m].bind
    {
      assert i != next ==> Runs.BusyAt(p, i, k) && i < next;
      assert j != next ==> Runs.BusyAt(p, j, m) && j < next;
    }
  }

  lemma InstallOneKeeps(p: PoolData, adopted: seq<AdoptedVM>, next: nat, now: int)
    requires adopted != [] && adopted[0].vm.Some? && next < |p.states| && Progress(p, adopted, next) && now > 0
    ensures Progress(InstallOne(p, adopted[0], next, now), adopted[1..], next + 1)
  {
    var a := adopted[0];
    var q := InstallOne(p, a, next, now);
    WorkerIsInstalled(a.vm.value, a.slots, SlotCountOf(p), now, p.nextBind);
    hide BindSlots;
    assert q.states[next].slots == BindSlots(a.slots, SlotCountOf(p), now, p.nextBind);
    assert forall i :: next < i < |p.states| ==> !Busy(p.states[i]);
    BindsStayDistinct(p, q, next);
    hide Runs.BindsDistinct;
    assert forall i :: 0 <= i < next ==> Installed(q.states[i], q.nextBind);
    assert forall b :: b in adopted[1..] ==> b in adopted;
    forall i, b | 0 <= i < next + 1 && b in adopted[1..] && b.vm.Some?
      ensures q.states[i].vm != b.vm
    {
      var j :| 0 <= j < |adopted[1..]| && adopted[1..][j] == b;
      assert adopted[j + 1] == b;
    }
  }

  lemma {:induction false} InstallKeeps(p: PoolData, adopted: seq<AdoptedVM>, next: nat, now: int)
    returns (last: nat)
    requires Progress(p, adopted, next) && now > 0
    ensures var q := Install(p, adopted, next, now);
      && next <= last <= |q.states| == |p.states| && Progress(q, [], last)
      && q == p.(states := q.states, nextBind := q.nextBind)
    decreases |adopted|
  {
    last := next;
    if adopted != [] && next < |p.states| {
      if adopted[0].vm.None? {
        assert forall b :: b in adopted[1..] ==> b in adopted;
        last := InstallKeeps(p, adopted[1..], next, now);
      } else {
        InstallOneKeeps(p, adopted, next, now);
        hide Progress;
        last := InstallKeeps(InstallOne(p, adopted[0], next, now), adopted[1..], next + 1, now);
      }
    }
  }

  /** The pool Start works on: as its constructor left it, but for jobs already accepted. */
  ghost predicate Unstarted(p: PoolData) {
    && !p.started && p.causes == map[]
    && forall i :: 0 <= i < |p.states| ==> Blank(p.states[i])
  }

  /**
   Start on a fresh pool, with any jobs queued before and any adopted VMs of distinct names, leaves exactly a state from which the
   pool's runs begin; so everything proved of those runs holds for a restarted broker.
   */
  lemma StartBeginsARun(p: PoolData, adopted: seq<AdoptedVM>, now: int, hasProber: bool)
    requires Unstarted(p) && AdoptedDistinct(adopted) && now > 0
    ensures var q := Install(p.(started := true), adopted, 0, now);
      var vms := set i | 0 <= i < |q.states| && q.states[i].vm.Some? :: q.states[i].vm.value;
      Runs.Init(Runs.Sys(q, seq(|q.states|, _ => Runs.Task(Runs.Claiming, [])), [], now, false, hasProber,
                         vms, [], p.queue, [], [], map[]))
  {
    var last := InstallKeeps(p.(started := true), adopted, 0, now);
    hide Install;
  }
}
