/** One eviction seen as a single exchange of places between a victim and a disk
    descriptor, and what that exchange keeps. */
module Exchange {
  import opened Machine
  import opened Evict

  /** The phases of one pass of the eviction worker.  A faulting thread that
      evicts for itself keeps the frame instead of releasing it. */
  function Worker(release: bool): seq<Phase> {
    [Pick, Mark, Take, Write, Unmap, Move, Flag, Settle(release)]
  }

  function JobFor(s: State, v: nat, d: nat): (j: Job)
    requires v in s.desc
  {
    Job(v, d, s.desc[v].va, s.desc[v].va in s.mem.dirty || !s.desc[v].hasReserve, s.desc[v].offset)
  }

  /** `d` is the disk descriptor that the worker picks for the victim `v`. */
  ghost predicate Chosen(s: State, v: nat, d: nat) {
    && v in s.desc
    && s.desc[v].list == Some(Eviction)
    && if s.desc[v].hasReserve then s.desc[v].reserve == Some(d)
       else s.lists.diskFree != [] && d == s.lists.diskFree[0]
  }

  ghost function Exchanged(s: State, v: nat, d: nat, release: bool): (t: State)
    requires v in s.desc && d in s.desc
  {
    var j := JobFor(s, v, d);
    s.(desc := s.desc
         [v := s.desc[v].(offset := s.desc[d].offset, inDram := false, swappedOut := true, migrating := false,
                          hasReserve := false, reserve := None, list := Some(DiskActive))]
         [d := s.desc[d].(offset := s.desc[v].offset, inDram := true, hasReserve := false, reserve := None,
                          list := if release then Some(DramFree) else None)],
       lists := s.lists.(
         eviction := Without(s.lists.eviction, v),
         diskReserve := if s.desc[v].hasReserve then Without(s.lists.diskReserve, d) else s.lists.diskReserve,
         diskFree := if s.desc[v].hasReserve then s.lists.diskFree else Without(s.lists.diskFree, d),
         diskActive := s.lists.diskActive + [v],
         dramFree := if release then s.lists.dramFree + [d] else s.lists.dramFree),
       mem := Memory(s.mem.ram - {j.va}, s.mem.dirty - {j.va}, s.mem.accessed - {j.va}, {},
                     if j.writeback && j.va in s.mem.ram then s.mem.disk[s.desc[d].offset := s.mem.ram[j.va]]
                     else s.mem.disk))
  }

  lemma ChosenFacts(s: State, v: nat, d: nat)
    requires Inv(s) && Chosen(s, v, d)
    ensures d in s.desc && v != d && Resident(s.desc[v]) && !s.desc[d].inDram
    ensures s.desc[d].list == Some(Backing(s.desc[v]))
    ensures s.desc[d].hasReserve == s.desc[v].hasReserve
    ensures s.desc[d].va == 0 && s.desc[d].swappedOut && !s.desc[d].present
    ensures s.desc[d].reserve == if s.desc[v].hasReserve then Some(v) else None
    ensures s.desc[v].hasReserve <==> s.desc[v].reserve.Some?
    ensures s.desc[v].va in s.mem.ram && s.desc[d].offset in s.mem.disk
    ensures Fits(s, JobFor(s, v, d))
  {
    assert RoleOk(s.desc[v]) && Paired(s, v) && Backed(s, v);
    if !s.desc[v].hasReserve {
      assert d in s.lists.Get(DiskFree);
    }
    assert RoleOk(s.desc[d]) && Backed(s, d);
  }

  // ----- all phases of one job -----

  /** The part of the state that a job can see. */
  datatype View = View(victim: Desc, disk: Desc, lists: Lists, mem: Memory)

  ghost function Step(ph: Phase, x: View, j: Job): View {
    View(VictimAfter(ph, x.victim, x.disk), DiskAfter(ph, x.victim, x.disk, j.frame),
         ListsAfter(ph, x.lists, x.victim, j), MemoryAfter(ph, x.mem, x.disk.offset, j))
  }

  ghost function Steps(phs: seq<Phase>, x: View, j: Job): View {
    if phs == [] then x else Steps(phs[1..], Step(phs[0], x, j), j)
  }

  ghost function ViewOf(s: State, j: Job): View
    requires Fits(s, j)
  {
    View(s.desc[j.victim], s.desc[j.disk], s.lists, s.mem)
  }

  ghost function Install(s: State, j: Job, x: View): State {
    s.(desc := s.desc[j.victim := x.victim][j.disk := x.disk], lists := x.lists, mem := x.mem)
  }

  lemma {:induction false} RunIsLocal(phs: seq<Phase>, s: State, j: Job)
    requires Fits(s, j)
    ensures Run(phs, s, j) == Install(s, j, Steps(phs, ViewOf(s, j), j))
  {
    if phs == [] {
      assert s.desc[j.victim := s.desc[j.victim]][j.disk := s.desc[j.disk]] == s.desc;
    } else {
      var t := Do(phs[0], s, j);
      RunIsLocal(phs[1..], t, j);
      assert ViewOf(t, j) == Step(phs[0], ViewOf(s, j), j);
      var x := Steps(phs[1..], ViewOf(t, j), j);
      assert t.desc[j.victim := x.victim][j.disk := x.disk] == s.desc[j.victim := x.victim][j.disk := x.disk];
    }
  }

  lemma FirstStep(a: Phase, rest: seq<Phase>, x: View, j: Job)
    ensures Steps([a] + rest, x, j) == Steps(rest, Step(a, x, j), j)
  {
    assert ([a] + rest)[1..] == rest;
  }

  lemma WorkerSteps(release: bool, x: View, j: Job)
    ensures Steps(Worker(release), x, j) ==
      Step(Settle(release), Step(Flag, Step(Move, Step(Unmap, Step(Write, Step(Take, Step(Mark, Step(Pick, x, j), j), j), j), j), j), j), j)
  {
    var x1 := Step(Pick, x, j);
    var x2 := Step(Mark, x1, j);
    var x3 := Step(Take, x2, j);
    var x4 := Step(Write, x3, j);
    var x5 := Step(Unmap, x4, j);
    var x6 := Step(Move, x5, j);
    var x7 := Step(Flag, x6, j);
    assert Worker(release) == [Pick] + ([Mark] + ([Take] + ([Write] + ([Unmap] + ([Move] + ([Flag] + ([Settle(release)] + [])))))));
    FirstStep(Pick, [Mark] + ([Take] + ([Write] + ([Unmap] + ([Move] + ([Flag] + ([Settle(release)] + [])))))), x, j);
    FirstStep(Mark, [Take] + ([Write] + ([Unmap] + ([Move] + ([Flag] + ([Settle(release)] + []))))), x1, j);
    FirstStep(Take, [Write] + ([Unmap] + ([Move] + ([Flag] + ([Settle(release)] + [])))), x2, j);
    FirstStep(Write, [Unmap] + ([Move] + ([Flag] + ([Settle(release)] + []))), x3, j);
    FirstStep(Unmap, [Move] + ([Flag] + ([Settle(release)] + [])), x4, j);
    FirstStep(Move, [Flag] + ([Settle(release)] + []), x5, j);
    FirstStep(Flag, [Settle(release)] + [], x6, j);
    FirstStep(Settle(release), [], x7, j);
  }

  ghost function LastStep(release: bool, x: View, j: Job): View {
    Step(Settle(release), Step(Flag, Step(Move, Step(Unmap, Step(Write, Step(Take, Step(Mark, Step(Pick, x, j), j), j), j), j), j), j), j)
  }

  lemma LastMemory(release: bool, x: View, j: Job)
    requires x.mem.protected == {}
    ensures LastStep(release, x, j).mem ==
      Memory(x.mem.ram - {j.va}, x.mem.dirty - {j.va}, x.mem.accessed - {j.va}, {},
             if j.writeback && j.va in x.mem.ram then x.mem.disk[x.disk.offset := x.mem.ram[j.va]] else x.mem.disk)
  {
    assert x.mem.protected + {j.va} - {j.va} == {};
  }

  /** All phases of one job together exchange the places of victim and disk
      descriptor, write the victim out when it must be, and unmap it. */
  lemma RunExchanges(s: State, v: nat, d: nat, release: bool)
    requires Inv(s) && Chosen(s, v, d)
    ensures d in s.desc && Fits(s, JobFor(s, v, d))
    ensures Run(Worker(release), s, JobFor(s, v, d)) == Exchanged(s, v, d, release)
  {
    ChosenFacts(s, v, d);
    hide Inv, Run, Steps;
    var j := JobFor(s, v, d);
    RunIsLocal(Worker(release), s, j);
    WorkerSteps(release, ViewOf(s, j), j);
    LastMemory(release, ViewOf(s, j), j);
  }

  // ----- what an exchange keeps -----

  function Moved(s: State, v: nat, d: nat, release: bool): State
    requires v in s.desc && d in s.desc
  {
    var u := Enqueue(Detach(Detach(s, Eviction, v), Backing(s.desc[v]), d), DiskActive, v);
    if release then Enqueue(u, DramFree, d) else u
  }

  lemma MovedKeepsLists(s: State, v: nat, d: nat, release: bool)
    requires ListsOk(s) && v in s.desc && d in s.desc && v != d
    requires s.desc[v].list == Some(Eviction) && s.desc[d].list == Some(Backing(s.desc[v]))
    ensures ListsOk(Moved(s, v, d, release))
  {
    var s1 := Detach(s, Eviction, v);
    var s2 := Detach(s1, Backing(s.desc[v]), d);
    DetachKeepsLists(s, Eviction, v);
    DetachKeepsLists(s1, Backing(s.desc[v]), d);
    EnqueueKeepsLists(s2, DiskActive, v);
    if release {
      EnqueueKeepsLists(Enqueue(s2, DiskActive, v), DramFree, d);
    }
  }

  lemma ExchangedMoves(s: State, v: nat, d: nat, release: bool)
    requires v in s.desc && d in s.desc && v != d
    ensures Exchanged(s, v, d, release).lists == Moved(s, v, d, release).lists
    ensures forall p :: p in s.desc ==>
      Exchanged(s, v, d, release).desc[p].list == Moved(s, v, d, release).desc[p].list
  {}

  lemma KeepsLists(s: State, v: nat, d: nat, release: bool)
    requires Inv(s) && Chosen(s, v, d) && d in s.desc
    ensures ListsOk(Exchanged(s, v, d, release))
  {
    ChosenFacts(s, v, d);
    hide Exchanged, Moved;
    MovedKeepsLists(s, v, d, release);
    ExchangedMoves(s, v, d, release);
    SameListsOk(Moved(s, v, d, release), Exchanged(s, v, d, release));
  }

  lemma KeepsRoles(s: State, v: nat, d: nat, release: bool)
    requires Inv(s) && Chosen(s, v, d) && d in s.desc
    ensures RolesOk(Exchanged(s, v, d, release))
  {
    ChosenFacts(s, v, d);
    var t := Exchanged(s, v, d, release);
    forall p | p in t.desc ensures RoleOk(t.desc[p]) {
      assert RoleOk(s.desc[p]);
    }
  }

  lemma KeepsPairs(s: State, v: nat, d: nat, release: bool)
    requires Inv(s) && Chosen(s, v, d) && d in s.desc
    ensures PairsOk(Exchanged(s, v, d, release))
  {
    ChosenFacts(s, v, d);
    var t := Exchanged(s, v, d, release);
    assert Paired(s, v) && Paired(s, d);
    forall p | p in t.desc ensures Paired(t, p) {
      assert Paired(s, p);
      assert RoleOk(s.desc[p]) && RoleOk(s.desc[v]) && RoleOk(s.desc[d]);
    }
  }

  lemma KeepsPlaces(s: State, v: nat, d: nat, release: bool)
    requires Inv(s) && Chosen(s, v, d) && d in s.desc
    ensures PlacesOk(Exchanged(s, v, d, release))
  {
    ChosenFacts(s, v, d);
    PlacesSwap(s, Exchanged(s, v, d, release), v, d);
  }

  lemma KeepsIndex(s: State, v: nat, d: nat, release: bool)
    requires Inv(s) && Chosen(s, v, d) && d in s.desc
    ensures IndexOk(Exchanged(s, v, d, release))
  {
    ChosenFacts(s, v, d);
    var t := Exchanged(s, v, d, release);
    forall va | va in t.index ensures Indexed(t, va) {
      assert Indexed(s, va);
    }
    forall p | p in t.desc ensures Tracked(t, p) {
      assert Tracked(s, p);
    }
  }

  /** Every page keeps its contents across the exchange: a victim that is not
      written out still equals its reserve slot. */
  lemma KeepsContent(s: State, v: nat, d: nat, release: bool, p: nat)
    requires Inv(s) && Chosen(s, v, d) && d in s.desc && p in s.desc && p != d
    requires s.desc[p].inDram ==> s.desc[p].va != 0
    ensures Content(Exchanged(s, v, d, release), p) == Content(s, p)
  {
    ChosenFacts(s, v, d);
    assert Backed(s, v) && Backed(s, p);
    assert Tracked(s, v) && Tracked(s, p);
    if !s.desc[p].inDram {
      assert p != v ==> Place(s, p) != Place(s, d);
    }
  }

  lemma KeepsMemory(s: State, v: nat, d: nat, release: bool)
    requires Inv(s) && Chosen(s, v, d) && d in s.desc
    ensures MemoryOk(Exchanged(s, v, d, release))
  {
    ChosenFacts(s, v, d);
    var t := Exchanged(s, v, d, release);
    forall p | p in t.desc ensures Backed(t, p) {
      assert Backed(s, p) && Backed(s, v) && Backed(s, d);
      assert RoleOk(s.desc[p]) && Tracked(s, p) && Tracked(s, v);
      if p != v && p != d {
        if s.desc[p].inDram && s.desc[p].reserve.Some? {
          var r := s.desc[p].reserve.value;
          assert Paired(s, p) && Paired(s, v) && RoleOk(s.desc[r]);
          assert r != d && r != v;
          KeepsContent(s, v, d, release, p);
          KeepsContent(s, v, d, release, r);
        }
      }
    }
    forall va | va in t.mem.ram ensures Mapped(t, va) {
      assert Mapped(s, va) && Indexed(s, va) && Tracked(s, v);
    }
  }

  lemma UserSeesTheSame(s: State, t: State)
    requires t.index == s.index
    requires forall va :: va in s.index ==> Content(t, s.index[va]) == Content(s, s.index[va])
    ensures UserMemory(t) == UserMemory(s)
  {}

  /** An exchange keeps the invariant, the contents of every tracked page, and
      every descriptor that is lent out. */
  lemma ExchangeKeeps(s: State, v: nat, d: nat, release: bool)
    requires Inv(s) && Chosen(s, v, d)
    ensures d in s.desc
    ensures var t := Exchanged(s, v, d, release);
      Inv(t) && SameForUser(s, t) && KeepsLoans(s, t)
  {
    ChosenFacts(s, v, d);
    var t := Exchanged(s, v, d, release);
    hide ListsOk, RolesOk, PairsOk, PlacesOk, MemoryOk;
    KeepsLists(s, v, d, release);
    KeepsRoles(s, v, d, release);
    KeepsPairs(s, v, d, release);
    KeepsPlaces(s, v, d, release);
    KeepsIndex(s, v, d, release);
    KeepsMemory(s, v, d, release);
    forall va | va in s.index ensures Content(t, s.index[va]) == Content(s, s.index[va]) {
      assert Indexed(s, va);
      KeepsContent(s, v, d, release, s.index[va]);
    }
    UserSeesTheSame(s, t);
  }
}
