module Evict {
  import opened Machine

  /** What one eviction does to one victim, cut at the points where the vector
      worker moves on to the next victim of its batch. */
  datatype Phase = Pick | Mark | Take | Write | Unmap | Move | Flag | Settle(release: bool)

  /** The place of a phase in the worker's code. */
  function Rank(ph: Phase): nat {
    match ph
    case Pick => 0
    case Mark => 1
    case Take => 2
    case Write => 3
    case Unmap => 4
    case Move => 5
    case Flag => 6
    case Settle(_) => 7
  }

  /** A victim, the disk descriptor it trades places with, and the locals that
      are sampled once the victim is write-protected. */
  datatype Job = Job(victim: nat, disk: nat, va: nat, writeback: bool, frame: nat)

  predicate Fits(s: State, j: Job) {
    j.victim in s.desc && j.disk in s.desc && j.victim != j.disk && s.desc[j.victim].va == j.va
  }

  predicate Apart(j: Job, k: Job) {
    j.victim != k.victim && j.disk != k.disk && j.victim != k.disk && j.disk != k.victim && j.va != k.va
  }

  function Backing(v: Desc): Queue {
    if v.hasReserve then DiskReserve else DiskFree
  }

  /** The victim `v` after a phase; `d` is its disk descriptor. */
  function VictimAfter(ph: Phase, v: Desc, d: Desc): (r: Desc)
    ensures r.va == v.va
  {
    match ph
    case Pick => v.(list := None)
    case Mark => v.(migrating := true)
    case Take => v
    case Write => v
    case Unmap => v
    case Move => v.(offset := d.offset, inDram := false)
    case Flag => v.(swappedOut := true)
    case Settle(_) =>
      v.(hasReserve := false, reserve := if v.hasReserve then None else v.reserve,
         migrating := false, list := Some(DiskActive))
  }

  /** The disk descriptor `d` after a phase of its victim `v`. */
  function DiskAfter(ph: Phase, v: Desc, d: Desc, frame: nat): Desc {
    match ph
    case Pick => d
    case Mark => d
    case Take => d.(list := None)
    case Write => d
    case Unmap => d
    case Move => d
    case Flag => d
    case Settle(release) =>
      d.(offset := frame, inDram := true, present := false,
         hasReserve := if v.hasReserve then false else d.hasReserve,
         reserve := if v.hasReserve then None else d.reserve,
         list := if release then Some(DramFree) else d.list)
  }

  function ListsAfter(ph: Phase, l: Lists, v: Desc, j: Job): Lists {
    match ph
    case Pick => l.(eviction := Without(l.eviction, j.victim))
    case Mark => l
    case Take =>
      if v.hasReserve then l.(diskReserve := Without(l.diskReserve, j.disk))
      else l.(diskFree := Without(l.diskFree, j.disk))
    case Write => l
    case Unmap => l
    case Move => l
    case Flag => l
    case Settle(release) =>
      l.(diskActive := l.diskActive + [j.victim],
         dramFree := if release then l.dramFree + [j.disk] else l.dramFree)
  }

  function DescAfter(ph: Phase, desc: map<nat, Desc>, j: Job): (r: map<nat, Desc>)
    requires j.victim in desc && j.disk in desc
  {
    var (v, d) := (desc[j.victim], desc[j.disk]);
    desc[j.victim := VictimAfter(ph, v, d)][j.disk := DiskAfter(ph, v, d, j.frame)]
  }

  function MemoryAfter(ph: Phase, m: Memory, slot: nat, j: Job): Memory {
    match ph
    case Mark => m.(protected := m.protected + {j.va})
    case Write => if j.writeback && j.va in m.ram then m.(disk := m.disk[slot := m.ram[j.va]]) else m
    case Unmap =>
      Memory(m.ram - {j.va}, m.dirty - {j.va}, m.accessed - {j.va}, m.protected - {j.va}, m.disk)
    case _ => m
  }

  function Do(ph: Phase, s: State, j: Job): (t: State)
    requires Fits(s, j)
    ensures t.desc.Keys == s.desc.Keys
    ensures forall k :: Fits(s, k) ==> Fits(t, k)
  {
    s.(desc := DescAfter(ph, s.desc, j),
       lists := ListsAfter(ph, s.lists, s.desc[j.victim], j),
       mem := MemoryAfter(ph, s.mem, s.desc[j.disk].offset, j))
  }

  lemma MapSwap(m: map<nat, Desc>, v: nat, d: nat, w: nat, e: nat, vx: Desc, dx: Desc, wx: Desc, ex: Desc)
    requires v != w && v != e && d != w && d != e
    ensures m[v := vx][d := dx][w := wx][e := ex] == m[w := wx][e := ex][v := vx][d := dx]
  {
  }

  lemma CommuteDesc(a: Phase, b: Phase, m: map<nat, Desc>, j: Job, k: Job)
    requires {j.victim, j.disk, k.victim, k.disk} <= m.Keys
    requires j.victim != j.disk && k.victim != k.disk && Apart(j, k)
    ensures DescAfter(b, DescAfter(a, m, j), k) == DescAfter(a, DescAfter(b, m, k), j)
  {
    var (v, d) := (m[j.victim], m[j.disk]);
    var (w, e) := (m[k.victim], m[k.disk]);
    var (vx, dx) := (VictimAfter(a, v, d), DiskAfter(a, v, d, j.frame));
    var (wx, ex) := (VictimAfter(b, w, e), DiskAfter(b, w, e, k.frame));
    MapSwap(m, j.victim, j.disk, k.victim, k.disk, vx, dx, wx, ex);
    assert DescAfter(b, DescAfter(a, m, j), k) == m[j.victim := vx][j.disk := dx][k.victim := wx][k.disk := ex];
    assert DescAfter(a, DescAfter(b, m, k), j) == m[k.victim := wx][k.disk := ex][j.victim := vx][j.disk := dx];
  }

  lemma CommuteLists(a: Phase, b: Phase, l: Lists, v: Desc, w: Desc, j: Job, k: Job)
    requires Rank(a) != Rank(b)
    ensures ListsAfter(b, ListsAfter(a, l, v, j), w, k) == ListsAfter(a, ListsAfter(b, l, w, k), v, j)
  {
  }

  lemma CommuteMemory(a: Phase, b: Phase, m: Memory, x: nat, y: nat, j: Job, k: Job)
    requires Rank(a) != Rank(b) && j.va != k.va
    ensures MemoryAfter(b, MemoryAfter(a, m, x, j), y, k) == MemoryAfter(a, MemoryAfter(b, m, y, k), x, j)
  {
    var p := MemoryAfter(b, MemoryAfter(a, m, x, j), y, k);
    var q := MemoryAfter(a, MemoryAfter(b, m, y, k), x, j);
    assert p.ram == q.ram && p.disk == q.disk;
    assert p.dirty == q.dirty && p.accessed == q.accessed && p.protected == q.protected;
  }

  /** Different phases of different victims can be swapped. */
  lemma Commute(a: Phase, b: Phase, s: State, j: Job, k: Job)
    requires Fits(s, j) && Fits(s, k) && Apart(j, k)
    requires Rank(a) != Rank(b)
    ensures Fits(Do(a, s, j), k) && Fits(Do(b, s, k), j)
    ensures Do(b, Do(a, s, j), k) == Do(a, Do(b, s, k), j)
  {
    CommuteDesc(a, b, s.desc, j, k);
    CommuteLists(a, b, s.lists, s.desc[j.victim], s.desc[k.victim], j, k);
    CommuteMemory(a, b, s.mem, s.desc[j.disk].offset, s.desc[k.disk].offset, j, k);
  }

  // ----- one victim at a time, or one phase at a time -----

  ghost predicate AllFit(s: State, jobs: seq<Job>) {
    forall i :: 0 <= i < |jobs| ==> Fits(s, jobs[i])
  }

  ghost predicate AllApart(jobs: seq<Job>) {
    forall i, j :: 0 <= i < j < |jobs| ==> Apart(jobs[i], jobs[j])
  }

  /** All phases for one victim: what `lrudisk_evictionworker` does. */
  ghost function Run(phs: seq<Phase>, s: State, j: Job): (t: State)
    requires Fits(s, j)
    ensures t.desc.Keys == s.desc.Keys
    ensures forall k :: Fits(s, k) ==> Fits(t, k)
  {
    if phs == [] then s else Run(phs[1..], Do(phs[0], s, j), j)
  }

  /** One phase for all victims: one index loop of the vector worker. */
  ghost function Sweep(ph: Phase, s: State, jobs: seq<Job>): (t: State)
    requires AllFit(s, jobs)
    ensures t.desc.Keys == s.desc.Keys
    ensures forall k :: Fits(s, k) ==> Fits(t, k)
    decreases |jobs|
  {
    if jobs == [] then s else Sweep(ph, Do(ph, s, jobs[0]), jobs[1..])
  }

  ghost function ByPhase(phs: seq<Phase>, s: State, jobs: seq<Job>): (t: State)
    requires AllFit(s, jobs)
    ensures t.desc.Keys == s.desc.Keys
  {
    if phs == [] then s else ByPhase(phs[1..], Sweep(phs[0], s, jobs), jobs)
  }

  ghost function ByVictim(phs: seq<Phase>, s: State, jobs: seq<Job>): (t: State)
    requires AllFit(s, jobs)
    ensures t.desc.Keys == s.desc.Keys
    decreases |jobs|
  {
    if jobs == [] then s else ByVictim(phs, Run(phs, s, jobs[0]), jobs[1..])
  }

  ghost predicate Foreign(a: Phase, phs: seq<Phase>) {
    forall i :: 0 <= i < |phs| ==> Rank(phs[i]) != Rank(a)
  }

  ghost predicate InOrder(phs: seq<Phase>) {
    forall i, j :: 0 <= i < j < |phs| ==> Rank(phs[i]) < Rank(phs[j])
  }

  lemma {:induction false} DoPastSweep(b: Phase, a: Phase, s: State, j: Job, jobs: seq<Job>)
    requires Fits(s, j) && AllFit(s, jobs) && Rank(a) != Rank(b)
    requires forall i :: 0 <= i < |jobs| ==> Apart(j, jobs[i])
    ensures Do(b, Sweep(a, s, jobs), j) == Sweep(a, Do(b, s, j), jobs)
    decreases |jobs|
  {
    if jobs != [] {
      var k := jobs[0];
      Commute(b, a, s, j, k);
      DoPastSweep(b, a, Do(a, s, k), j, jobs[1..]);
    }
  }

  lemma {:induction false} RunPastSweep(phs: seq<Phase>, a: Phase, s: State, j: Job, jobs: seq<Job>)
    requires Fits(s, j) && AllFit(s, jobs) && Foreign(a, phs)
    requires forall i :: 0 <= i < |jobs| ==> Apart(j, jobs[i])
    ensures Run(phs, Sweep(a, s, jobs), j) == Sweep(a, Run(phs, s, j), jobs)
  {
    if phs != [] {
      DoPastSweep(phs[0], a, s, j, jobs);
      RunPastSweep(phs[1..], a, Do(phs[0], s, j), j, jobs);
    }
  }

  lemma {:induction false} PeelVictim(phs: seq<Phase>, s: State, jobs: seq<Job>)
    requires AllFit(s, jobs) && AllApart(jobs) && InOrder(phs) && jobs != []
    ensures ByPhase(phs, s, jobs) == ByPhase(phs, Run(phs, s, jobs[0]), jobs[1..])
  {
    if phs != [] {
      var (a, rest, j, js) := (phs[0], phs[1..], jobs[0], jobs[1..]);
      assert Foreign(a, rest) && InOrder(rest);
      var u := Do(a, s, j);
      RunPastSweep(rest, a, u, j, js);
      PeelVictim(rest, Sweep(a, s, jobs), jobs);
    }
  }

  /** Doing each phase for the whole batch before the next one ends in the state
      of doing all phases victim by victim. */
  lemma {:induction false} BatchIsIteration(phs: seq<Phase>, s: State, jobs: seq<Job>)
    requires AllFit(s, jobs) && AllApart(jobs) && InOrder(phs)
    ensures ByPhase(phs, s, jobs) == ByVictim(phs, s, jobs)
    decreases |jobs|
  {
    if jobs == [] {
      SweepNothing(phs, s);
    } else {
      PeelVictim(phs, s, jobs);
      BatchIsIteration(phs, Run(phs, s, jobs[0]), jobs[1..]);
    }
  }

  lemma {:induction false} SweepNothing(phs: seq<Phase>, s: State)
    ensures ByPhase(phs, s, []) == s
  {
    if phs != [] {
      SweepNothing(phs[1..], s);
    }
  }
}
