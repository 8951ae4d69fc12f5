/** The eviction workers and the eviction a faulting thread does for itself, on
    the heap, against the phases of `Evict`. */
module Eviction {
  import opened Machine
  import opened Fifo
  import opened Evict
  import P = Pager
  import X = Exchange
  import W = Workers

  /** `page` is the victim, `disk` the disk descriptor of the job `j`. */
  ghost predicate Victim(g: P.Pager, page: UserPage, j: Job)
    reads g
  {
    g.Known(page) && page.addr == j.victim && Fits(g.state, j)
  }

  ghost predicate Both(g: P.Pager, page: UserPage, disk: UserPage, j: Job)
    reads g
  {
    Victim(g, page, j) && g.Known(disk) && disk.addr == j.disk
  }

  /** What the asserts of the eviction test of the victim at `p` and its disk
      descriptor before the page is written out. */
  ghost predicate Sturdy(v: Desc, d: Desc, p: nat, dramsize: nat, disksize: nat) {
    && v.inDram && !v.swappedOut && v.migrating && v.va != 0 && v.va % PAGE_SIZE == 0
    && v.offset + PAGE_SIZE <= dramsize && d.offset + PAGE_SIZE <= disksize
    && !d.present && (v.hasReserve ==> d.reserve == Some(p))
  }

  ghost predicate Going(s: State, j: Job) {
    && Fits(s, j) && j.va in s.mem.ram
    && Sturdy(s.desc[j.victim], s.desc[j.disk], j.victim, s.dramsize, s.disksize)
  }

  /** What they test of it afterwards. */
  ghost predicate Down(s: State, j: Job) {
    Fits(s, j) && s.desc[j.victim].swappedOut && s.desc[j.victim].migrating && !s.desc[j.disk].present
  }

  lemma OffsetFits(offset: nat, size: nat)
    requires offset % PAGE_SIZE == 0 && offset / PAGE_SIZE < size / PAGE_SIZE
    ensures offset + PAGE_SIZE <= size
  {}

  /** Every descriptor points inside DRAM or the disk, and every page is aligned. */
  lemma InBounds(s: State, p: nat)
    requires PlacesOk(s) && IndexOk(s) && p in s.desc
    ensures s.desc[p].offset + PAGE_SIZE <= if s.desc[p].inDram then s.dramsize else s.disksize
    ensures s.desc[p].va % PAGE_SIZE == 0
  {
    assert InRange(s, Place(s, p)) && Tracked(s, p);
    OffsetFits(s.desc[p].offset, if s.desc[p].inDram then s.dramsize else s.disksize);
    if s.desc[p].va != 0 { assert Indexed(s, s.desc[p].va); }
  }

  /** UFFDIO_WRITEPROTECT on one page. */
  method WriteProtect(g: P.Pager, page: UserPage)
    requires g.Valid() && g.Known(page) && page.va != 0 && page.va % PAGE_SIZE == 0
    modifies g.Repr()
    ensures g.Valid() && g.pages == old(g.pages)
    ensures page.addr in old(g.state.desc)
    ensures var (m, va) := (old(g.state).mem, old(g.state.desc[page.addr]).va);
      g.state == old(g.state).(mem := m.(protected := m.protected + {va}))
  {
    g.Look(page);
    g.MemoryIs();
    hide P.Pager.Valid;
    assert page.va != 0;
    assert page.va % PAGE_SIZE == 0;
    g.SetMemory(g.memory.(protected := g.memory.protected + {page.va}));
  }

  method MarkVictim(g: P.Pager, page: UserPage)
    requires g.Valid() && g.Known(page) && page.va != 0 && page.va % PAGE_SIZE == 0
    modifies g.Repr()
    ensures g.Valid() && g.pages == old(g.pages)
    ensures page.addr in old(g.state.desc) && g.state == Marked(old(g.state), page.addr)
  {
    hide P.Pager.Valid;
    g.Look(page);
    g.SetMigrating(page, true);
    g.Look(page);
    WriteProtect(g, page);
  }

  ghost function Marked(s: State, p: nat): State
    requires p in s.desc
  {
    s.(desc := s.desc[p := s.desc[p].(migrating := true)], mem := s.mem.(protected := s.mem.protected + {s.desc[p].va}))
  }

  lemma PickIs(s: State, j: Job)
    requires Fits(s, j)
    ensures Detach(s, Eviction, j.victim) == Do(Pick, s, j)
  {
    var v := s.desc[j.victim].(list := None);
    assert s.desc[j.victim := v][j.disk := s.desc[j.disk]] == s.desc[j.victim := v];
  }

  lemma MarkIs(s: State, j: Job)
    requires Fits(s, j)
    ensures Marked(s, j.victim) == Do(Mark, s, j)
  {
    var v := s.desc[j.victim].(migrating := true);
    assert s.desc[j.victim := v][j.disk := s.desc[j.disk]] == s.desc[j.victim := v];
  }

  /** The descriptor the page would trade places with is fit for it. */
  ghost predicate DiskFit(s: State, p: nat)
    requires p in s.desc
  {
    var v := s.desc[p];
    if v.hasReserve then
      v.reserve.Some? && v.reserve.value in s.lists.diskReserve
      && v.reserve.value in s.desc && s.desc[v.reserve.value].reserve == Some(p)
    else
      s.lists.diskFree != [] ==> s.lists.diskFree[0] in s.desc && !s.desc[s.lists.diskFree[0]].present
  }

  /** The victim's own reserve, or the oldest free slot; null if there is none. */
  method TakeDisk(g: P.Pager, page: UserPage) returns (disk: UserPage?)
    requires g.Valid() && g.Known(page) && page.addr in g.state.desc && DiskFit(g.state, page.addr)
    modifies g.Repr()
    ensures g.Valid() && g.pages == old(g.pages)
    ensures var v := old(g.state.desc[page.addr]);
      disk == null <==> !v.hasReserve && old(g.state.lists.diskFree) == []
    ensures disk == null ==> g.state == old(g.state)
    ensures disk != null ==> g.Known(disk)
    ensures var v := old(g.state.desc[page.addr]);
      disk != null ==> disk.addr == if v.hasReserve then v.reserve.value else old(g.state.lists.diskFree)[0]
    ensures forall j {:trigger Do(Take, old(g.state), j)} ::
      disk != null && Fits(old(g.state), j) && j.victim == page.addr && j.disk == disk.addr ==> g.state == Do(Take, old(g.state), j)
  {
    hide P.Pager.Valid;
    g.Look(page);
    if page.hasReserve {
      disk := page.reserve;
      assert disk != null;
      g.Look(disk);
      g.Alone(disk.reserve, page);
      assert disk.reserve == page;
      g.OnItsList(DiskReserve, disk);
      assert disk.list == g.diskReserveList;
      var ret := g.TryRemove(DiskReserve, g.diskReserveList, disk);
      assert ret == 0;
    } else {
      disk := g.Dequeue(DiskFree);
      if disk != null {
        g.Look(disk);
        assert !disk.present;
      }
    }
  }

  /** The page's bytes go to the disk slot, if they must. */
  method WriteSlot(g: P.Pager, page: UserPage, disk: UserPage, writeback: bool, ghost j: Job)
    requires g.Valid() && Both(g, page, disk, j) && writeback == j.writeback && j.va in g.state.mem.ram
    modifies g.Repr()
    ensures g.Valid() && g.pages == old(g.pages) && g.state == Do(Write, old(g.state), j)
  {
    g.Look(page);
    g.Look(disk);
    g.MemoryIs();
    hide P.Pager.Valid;
    if writeback {
      g.SetMemory(g.memory.(disk := g.memory.disk[disk.virtualOffset := g.memory.ram[page.va]]));
    }
  }

  /** MADV_DONTNEED on one page. */
  method Discard(g: P.Pager, page: UserPage, ghost j: Job)
    requires g.Valid() && Victim(g, page, j)
    modifies g.Repr()
    ensures g.Valid() && g.pages == old(g.pages) && g.state == Do(Unmap, old(g.state), j)
  {
    g.Look(page);
    g.MemoryIs();
    hide P.Pager.Valid;
    var (m, va) := (g.memory, page.va);
    g.SetMemory(Memory(m.ram - {va}, m.dirty - {va}, m.accessed - {va}, m.protected - {va}, m.disk));
  }

  lemma SetTwice(s: State, p: nat, d: Desc, e: Desc)
    ensures SetDesc(SetDesc(s, p, d), p, e) == SetDesc(s, p, e)
  {}

  lemma MoveIs(s: State, j: Job)
    requires Fits(s, j)
    ensures SetDesc(s, j.victim, s.desc[j.victim].(offset := s.desc[j.disk].offset, inDram := false)) == Do(Move, s, j)
  {
    var d := s.desc[j.victim := s.desc[j.victim].(offset := s.desc[j.disk].offset, inDram := false)];
    assert d[j.disk := s.desc[j.disk]] == d;
  }

  method MoveDown(g: P.Pager, page: UserPage, disk: UserPage, ghost j: Job)
    requires g.Valid() && Both(g, page, disk, j)
    modifies g.Repr()
    ensures g.Valid() && g.pages == old(g.pages) && g.state == Do(Move, old(g.state), j)
  {
    g.Look(page);
    g.Look(disk);
    hide P.Pager.Valid, Do;
    ghost var (s, v) := (g.state, g.state.desc[page.addr]);
    g.SetOffset(page, disk.virtualOffset);
    g.SetInDram(page, false);
    SetTwice(s, page.addr, v.(offset := s.desc[disk.addr].offset), v.(offset := s.desc[disk.addr].offset, inDram := false));
    MoveIs(s, j);
  }

  method FlagSwapped(g: P.Pager, page: UserPage, ghost j: Job)
    requires g.Valid() && Victim(g, page, j) && !g.state.desc[j.victim].swappedOut && g.state.desc[j.victim].migrating
    modifies g.Repr()
    ensures g.Valid() && g.pages == old(g.pages) && g.state == Do(Flag, old(g.state), j)
  {
    hide P.Pager.Valid;
    g.Look(page);
    assert page.swappedOut == false;
    g.SetSwappedOut(page, true);
    g.Look(page);
    assert page.migrating == true;
  }

  /** The disk descriptor takes over the victim's frame. */
  method TakeFrame(g: P.Pager, disk: UserPage, oldOffset: nat)
    requires g.Valid() && g.Known(disk)
    modifies g.Repr()
    ensures g.Valid() && g.pages == old(g.pages) && disk.addr in old(g.state.desc)
    ensures g.state == SetDesc(old(g.state), disk.addr,
      old(g.state.desc[disk.addr]).(offset := oldOffset, inDram := true, present := false))
  {
    g.Look(disk);
    hide P.Pager.Valid, SetDesc;
    g.SetOffset(disk, oldOffset);
    g.SetInDram(disk, true);
    g.SetPresent(disk, false);
    DescSet();
    SetAgain();
  }

  lemma DescSet()
    ensures forall s, p, d {:trigger SetDesc(s, p, d)} :: p in SetDesc(s, p, d).desc && SetDesc(s, p, d).desc[p] == d
  {}

  lemma SetAgain()
    ensures forall s, p, d, e {:trigger SetDesc(SetDesc(s, p, d), p, e)} :: SetDesc(SetDesc(s, p, d), p, e) == SetDesc(s, p, e)
  {}

  method Unreserve(g: P.Pager, page: UserPage)
    requires g.Valid() && g.Known(page)
    modifies g.Repr()
    ensures g.Valid() && g.pages == old(g.pages) && page.addr in old(g.state.desc)
    ensures g.state == SetDesc(old(g.state), page.addr, old(g.state.desc[page.addr]).(hasReserve := false, reserve := None))
  {
    g.Look(page);
    hide P.Pager.Valid, SetDesc;
    g.SetHasReserve(page, false);
    g.SetReserve(page, null);
    DescSet();
    SetAgain();
  }

  // ----- what the assignments add up to -----

  lemma InstallDisk(s: State, j: Job, x: X.View, y: Desc)
    requires Fits(s, j)
    ensures SetDesc(X.Install(s, j, x), j.disk, y) == X.Install(s, j, x.(disk := y))
  {}

  lemma InstallVictim(s: State, j: Job, x: X.View, y: Desc)
    requires Fits(s, j)
    ensures SetDesc(X.Install(s, j, x), j.victim, y) == X.Install(s, j, x.(victim := y))
  {
    assert s.desc[j.victim := x.victim][j.disk := x.disk][j.victim := y] == s.desc[j.victim := y][j.disk := x.disk];
  }

  lemma InstallEnqueue(s: State, j: Job, x: X.View, q: Queue)
    requires Fits(s, j)
    ensures var (t, l) := (X.Install(s, j, x), x.lists.Put(q, x.lists.Get(q) + [j.victim]));
      && j.victim in t.desc
      && Enqueue(t, q, j.victim) == X.Install(s, j, x.(victim := x.victim.(list := Some(q)), lists := l))
    ensures var (t, l) := (X.Install(s, j, x), x.lists.Put(q, x.lists.Get(q) + [j.disk]));
      && j.disk in t.desc
      && Enqueue(t, q, j.disk) == X.Install(s, j, x.(disk := x.disk.(list := Some(q)), lists := l))
  {
    InstallVictim(s, j, x, x.victim.(list := Some(q)));
    InstallDisk(s, j, x, x.disk.(list := Some(q)));
  }

  lemma InstallSelf(s: State, j: Job)
    requires Fits(s, j)
    ensures X.Install(s, j, X.ViewOf(s, j)) == s
  {
    assert s.desc[j.victim := s.desc[j.victim]][j.disk := s.desc[j.disk]] == s.desc;
  }

  lemma InstallHolds(s: State, j: Job, x: X.View)
    requires Fits(s, j)
    ensures var t := X.Install(s, j, x);
      j.victim in t.desc && j.disk in t.desc && t.desc[j.victim] == x.victim && t.desc[j.disk] == x.disk && t.lists == x.lists
  {}

  lemma DoInstalls(ph: Phase, s: State, j: Job)
    requires Fits(s, j)
    ensures Do(ph, s, j) == X.Install(s, j, X.Step(ph, X.ViewOf(s, j), j))
  {}

  ghost function FrameTaken(s: State, p: nat, frame: nat): State
    requires p in s.desc
  {
    SetDesc(s, p, s.desc[p].(offset := frame, inDram := true, present := false))
  }

  ghost function Released(s: State, p: nat, release: bool): State
    requires p in s.desc
  {
    if release then Enqueue(s, DramFree, p) else s
  }

  ghost function Unreserved(s: State, p: nat): State
    requires p in s.desc
  {
    SetDesc(s, p, s.desc[p].(hasReserve := false, reserve := None))
  }

  ghost function Still(s: State, p: nat): State
    requires p in s.desc
  {
    SetDesc(s, p, s.desc[p].(migrating := false))
  }

  lemma InstallTaken(s: State, j: Job, x: X.View)
    requires Fits(s, j)
    ensures var t := X.Install(s, j, x);
      j.disk in t.desc && FrameTaken(t, j.disk, j.frame)
        == X.Install(s, j, x.(disk := x.disk.(offset := j.frame, inDram := true, present := false)))
  {
    InstallDisk(s, j, x, x.disk.(offset := j.frame, inDram := true, present := false));
  }

  lemma InstallUnreserved(s: State, j: Job, x: X.View)
    requires Fits(s, j)
    ensures var t := X.Install(s, j, x);
      && j.disk in t.desc && j.victim in t.desc
      && Unreserved(t, j.disk) == X.Install(s, j, x.(disk := x.disk.(hasReserve := false, reserve := None)))
      && Unreserved(t, j.victim) == X.Install(s, j, x.(victim := x.victim.(hasReserve := false, reserve := None)))
  {
    InstallDisk(s, j, x, x.disk.(hasReserve := false, reserve := None));
    InstallVictim(s, j, x, x.victim.(hasReserve := false, reserve := None));
  }

  lemma InstallReleased(s: State, j: Job, x: X.View, release: bool)
    requires Fits(s, j)
    ensures var t := X.Install(s, j, x);
      j.disk in t.desc && Released(t, j.disk, release) == X.Install(s, j,
        if release then x.(disk := x.disk.(list := Some(DramFree)), lists := x.lists.(dramFree := x.lists.dramFree + [j.disk])) else x)
  {
    InstallEnqueue(s, j, x, DramFree);
  }

  lemma InstallListed(s: State, j: Job, x: X.View)
    requires Fits(s, j)
    ensures var t := X.Install(s, j, x);
      j.victim in t.desc && Enqueue(t, DiskActive, j.victim) == X.Install(s, j,
        x.(victim := x.victim.(list := Some(DiskActive)), lists := x.lists.(diskActive := x.lists.diskActive + [j.victim])))
  {
    InstallEnqueue(s, j, x, DiskActive);
  }

  lemma InstallStill(s: State, j: Job, x: X.View)
    requires Fits(s, j)
    ensures var t := X.Install(s, j, x);
      j.victim in t.desc && Still(t, j.victim) == X.Install(s, j, x.(victim := x.victim.(migrating := false)))
  {
    InstallVictim(s, j, x, x.victim.(migrating := false));
  }

  /** The fields of both descriptors once they are settled. */
  function SettledVictim(v: Desc): Desc {
    v.(hasReserve := false, reserve := if v.hasReserve then None else v.reserve, migrating := false, list := Some(DiskActive))
  }

  lemma SettleView(x: X.View, j: Job, release: bool)
    ensures var y := X.Step(Settle(release), x, j);
      && y.victim == SettledVictim(x.victim)
      && y.mem == x.mem
      && y.disk == (var d := x.disk.(offset := j.frame, inDram := true, present := false);
                    var e := if x.victim.hasReserve then d.(hasReserve := false, reserve := None) else d;
                    if release then e.(list := Some(DramFree)) else e)
      && y.lists == x.lists.(diskActive := x.lists.diskActive + [j.victim],
                             dramFree := if release then x.lists.dramFree + [j.disk] else x.lists.dramFree)
  {}

  lemma SettleReservedIs(s: State, j: Job, release: bool)
    requires Fits(s, j) && s.desc[j.victim].hasReserve
    ensures var u := Released(Unreserved(Unreserved(FrameTaken(s, j.disk, j.frame), j.disk), j.victim), j.disk, release);
      Still(Enqueue(u, DiskActive, j.victim), j.victim) == Do(Settle(release), s, j)
  {
    hide Do, X.Install, FrameTaken, Released, Unreserved, Still, Enqueue, X.Step;
    SettleView(X.ViewOf(s, j), j, release);
    var x := X.ViewOf(s, j);
    InstallSelf(s, j);
    InstallTaken(s, j, x);
    var x1 := x.(disk := x.disk.(offset := j.frame, inDram := true, present := false));
    InstallUnreserved(s, j, x1);
    var x2 := x1.(disk := x1.disk.(hasReserve := false, reserve := None));
    InstallUnreserved(s, j, x2);
    var x3 := x2.(victim := x2.victim.(hasReserve := false, reserve := None));
    InstallReleased(s, j, x3, release);
    var x4 := if release then x3.(disk := x3.disk.(list := Some(DramFree)), lists := x3.lists.(dramFree := x3.lists.dramFree + [j.disk])) else x3;
    InstallListed(s, j, x4);
    InstallStill(s, j, x4.(victim := x4.victim.(list := Some(DiskActive)), lists := x4.lists.(diskActive := x4.lists.diskActive + [j.victim])));
    DoInstalls(Settle(release), s, j);
  }

  lemma SettleFreshIs(s: State, j: Job, release: bool)
    requires Fits(s, j) && !s.desc[j.victim].hasReserve
    ensures Fits(Enqueue(s, DiskActive, j.victim), j)
    ensures var u := Released(FrameTaken(Enqueue(s, DiskActive, j.victim), j.disk, j.frame), j.disk, release);
      Still(u, j.victim) == Do(Settle(release), s, j)
  {
    hide Do, X.Install, FrameTaken, Released, Still, X.Step;
    SettleView(X.ViewOf(s, j), j, release);
    var x := X.ViewOf(s, j);
    InstallSelf(s, j);
    InstallListed(s, j, x);
    var x1 := x.(victim := x.victim.(list := Some(DiskActive)), lists := x.lists.(diskActive := x.lists.diskActive + [j.victim]));
    InstallTaken(s, j, x1);
    var x2 := x1.(disk := x1.disk.(offset := j.frame, inDram := true, present := false));
    InstallReleased(s, j, x2, release);
    InstallStill(s, j, if release then x2.(disk := x2.disk.(list := Some(DramFree)), lists := x2.lists.(dramFree := x2.lists.dramFree + [j.disk])) else x2);
    DoInstalls(Settle(release), s, j);
  }

  /** Victim and reserve slot, having traded places, are put on their lists. */
  method SettleReserved(g: P.Pager, page: UserPage, disk: UserPage, oldOffset: nat, release: bool, ghost j: Job)
    requires g.Valid() && Both(g, page, disk, j) && oldOffset == j.frame
    requires g.state.desc[j.victim].list == None && g.state.desc[j.disk].list == None
    requires g.state.desc[j.victim].hasReserve && Down(g.state, j)
    modifies g.Repr()
    ensures g.Valid() && g.pages == old(g.pages) && g.state == Do(Settle(release), old(g.state), j)
  {
    hide P.Pager.Valid, Do;
    ghost var s := g.state;
    TakeFrame(g, disk, oldOffset);
    Unreserve(g, disk);
    Unreserve(g, page);
    g.Look(disk);
    if release {
      g.Enqueue(DramFree, disk);
    }
    g.Look(page);
    g.Enqueue(DiskActive, page);
    g.Look(page);
    assert page.migrating && page.swappedOut == true;
    g.SetMigrating(page, false);
    SettleReservedIs(s, j, release);
  }

  /** The same for a slot that was free. */
  method SettleFresh(g: P.Pager, page: UserPage, disk: UserPage, oldOffset: nat, release: bool, ghost j: Job)
    requires g.Valid() && Both(g, page, disk, j) && oldOffset == j.frame
    requires g.state.desc[j.victim].list == None && g.state.desc[j.disk].list == None
    requires !g.state.desc[j.victim].hasReserve && Down(g.state, j)
    modifies g.Repr()
    ensures g.Valid() && g.pages == old(g.pages) && g.state == Do(Settle(release), old(g.state), j)
  {
    hide P.Pager.Valid, Do;
    ghost var s := g.state;
    g.Look(page);
    g.Enqueue(DiskActive, page);
    TakeFrame(g, disk, oldOffset);
    g.Look(disk);
    if release {
      g.Enqueue(DramFree, disk);
    }
    g.Look(page);
    assert page.migrating && page.swappedOut == true;
    g.SetMigrating(page, false);
    SettleFreshIs(s, j, release);
  }

  // ----- one victim -----

  lemma DoFields(ph: Phase, s: State, j: Job)
    requires Fits(s, j)
    ensures var (t, v, d) := (Do(ph, s, j), s.desc[j.victim], s.desc[j.disk]);
      && Fits(t, j)
      && t.desc[j.victim] == VictimAfter(ph, v, d) && t.desc[j.disk] == DiskAfter(ph, v, d, j.frame)
      && t.lists == ListsAfter(ph, s.lists, v, j) && t.mem == MemoryAfter(ph, s.mem, d.offset, j)
  {}

  /** Write-protected, its bits sampled. */
  ghost function Held(s: State, j: Job): (t: State)
    requires Fits(s, j)
    ensures Fits(t, j)
  {
    Do(Mark, Do(Pick, s, j), j)
  }

  /** Written out if need be, unmapped, moved and flagged. */
  ghost function SwappedDown(s: State, j: Job): (t: State)
    requires Fits(s, j)
    ensures Fits(t, j)
  {
    Do(Flag, Do(Move, Do(Unmap, Do(Write, s, j), j), j), j)
  }

  lemma HeldFields(s: State, j: Job)
    requires Fits(s, j)
    ensures var t := Held(s, j);
      && t.desc[j.victim] == s.desc[j.victim].(list := None, migrating := true)
      && t.desc[j.disk] == s.desc[j.disk]
      && t.lists == s.lists.(eviction := Without(s.lists.eviction, j.victim))
      && t.mem == s.mem.(protected := s.mem.protected + {j.va})
  {
    hide Do;
    DoFields(Pick, s, j);
    DoFields(Mark, Do(Pick, s, j), j);
  }

  lemma SwappedDownFields(s: State, j: Job)
    requires Fits(s, j)
    ensures var (t, v) := (SwappedDown(s, j), s.desc[j.victim]);
      && t.desc[j.victim] == v.(offset := s.desc[j.disk].offset, inDram := false, swappedOut := true)
      && t.desc[j.disk] == s.desc[j.disk]
    ensures var t := Do(Move, Do(Unmap, Do(Write, s, j), j), j);
      t.desc[j.victim].swappedOut == s.desc[j.victim].swappedOut && t.desc[j.victim].migrating == s.desc[j.victim].migrating
  {
    hide Do;
    DoFields(Write, s, j);
    var s1 := Do(Write, s, j);
    DoFields(Unmap, s1, j);
    var s2 := Do(Unmap, s1, j);
    DoFields(Move, s2, j);
    DoFields(Flag, Do(Move, s2, j), j);
  }

  /** What the worker meets between picking the victim and settling it. */
  lemma OnTheWay(s: State, j: Job)
    requires Fits(s, j)
    ensures var t := SwappedDown(Do(Take, Held(s, j), j), j);
      && j.victim in t.desc && t.desc[j.victim].list == None && t.desc[j.victim].hasReserve == s.desc[j.victim].hasReserve
      && j.disk in t.desc && t.desc[j.disk].list == None
  {
    hide Do, Held, SwappedDown;
    HeldFields(s, j);
    DoFields(Take, Held(s, j), j);
    SwappedDownFields(Do(Take, Held(s, j), j), j);
  }

  lemma JobFits(s: State, v: nat, d: nat)
    requires Inv(s) && X.Chosen(s, v, d)
    ensures Fits(s, X.JobFor(s, v, d))
    ensures s.desc[v].hasReserve ==> d in s.lists.diskReserve
  {
    X.ChosenFacts(s, v, d);
    assert Machine.Linked(s, d);
  }

  /** The worker's victim passes all the asserts on its way. */
  lemma HeldGoes(s: State, v: nat, d: nat)
    requires Inv(s) && X.Chosen(s, v, d)
    ensures Fits(s, X.JobFor(s, v, d))
    ensures var j := X.JobFor(s, v, d); Going(Do(Take, Held(s, j), j), j)
  {
    var j := X.JobFor(s, v, d);
    X.ChosenFacts(s, v, d);
    InBounds(s, v);
    InBounds(s, d);
    hide Inv, Do, Held;
    HeldFields(s, j);
    DoFields(Take, Held(s, j), j);
    SameSizes(s, j);
  }

  lemma SameSizes(s: State, j: Job)
    requires Fits(s, j)
    ensures var t := Do(Take, Held(s, j), j); t.dramsize == s.dramsize && t.disksize == s.disksize
  {}

  lemma {:induction false} RunAppend(a: seq<Phase>, b: seq<Phase>, s: State, j: Job)
    requires Fits(s, j)
    ensures Run(a + b, s, j) == Run(b, Run(a, s, j), j)
  {
    hide Do;
    if a == [] {
      assert a + b == b;
    } else {
      assert (a + b)[0] == a[0] && (a + b)[1..] == a[1..] + b;
      RunAppend(a[1..], b, Do(a[0], s, j), j);
    }
  }

  lemma RunMore(phs: seq<Phase>, a: Phase, s: State, j: Job)
    requires Fits(s, j)
    ensures Run(phs + [a], s, j) == Do(a, Run(phs, s, j), j)
  {
    hide Do;
    RunAppend(phs, [a], s, j);
    assert [a][1..] == [];
  }

  lemma RunHeld(s: State, j: Job)
    requires Fits(s, j)
    ensures Run([Pick] + [Mark], s, j) == Held(s, j)
  {
    hide Do, Run, Fits;
    RunMore([], Pick, s, j);
    assert [] + [Pick] == [Pick];
    RunNothing(s, j);
    RunMore([Pick], Mark, s, j);
  }

  lemma RunSwapsDown(s: State, j: Job)
    requires Fits(s, j)
    ensures Run([Write] + [Unmap] + [Move] + [Flag], s, j) == SwappedDown(s, j)
  {
    hide Do, Run, Fits;
    RunMore([], Write, s, j);
    assert [] + [Write] == [Write];
    RunNothing(s, j);
    RunMore([Write], Unmap, s, j);
    RunMore([Write] + [Unmap], Move, s, j);
    RunMore([Write] + [Unmap] + [Move], Flag, s, j);
  }

  lemma RunIs(s: State, j: Job, release: bool)
    requires Fits(s, j)
    ensures Run(X.Worker(release), s, j) == Do(Settle(release), SwappedDown(Do(Take, Held(s, j), j), j), j)
  {
    hide Do, Run, Fits, X.Worker, Held, SwappedDown;
    WorkerSpelled(release);
    var (a, b) := ([Pick] + [Mark], [Write] + [Unmap] + [Move] + [Flag]);
    RunHeld(s, j);
    RunMore(a, Take, s, j);
    RunAppend(a + [Take], b, s, j);
    RunSwapsDown(Do(Take, Held(s, j), j), j);
    RunMore(a + [Take] + b, Settle(release), s, j);
  }

  lemma WorkerSpelled(release: bool)
    ensures X.Worker(release) == [Pick] + [Mark] + [Take] + ([Write] + [Unmap] + [Move] + [Flag]) + [Settle(release)]
  {}

  lemma RunNothing(s: State, j: Job)
    requires Fits(s, j)
    ensures Run([], s, j) == s
  {}

  /** `extmem_migrate_downdisk`. */
  method MigrateDown(g: P.Pager, page: UserPage, disk: UserPage, writeback: bool, ghost j: Job)
    requires g.Valid() && Both(g, page, disk, j) && writeback == j.writeback && Going(g.state, j)
    modifies g.Repr()
    ensures g.Valid() && g.pages == old(g.pages) && g.state == SwappedDown(old(g.state), j)
    ensures Both(g, page, disk, j) && Down(g.state, j)
  {
    hide P.Pager.Valid, Do, Fits;
    g.Look(page);
    g.Look(disk);
    g.MemoryIs();
    assert page.inDram;
    assert page.virtualOffset < g.dramsize && page.virtualOffset + PAGE_SIZE <= g.dramsize;
    assert disk.virtualOffset < g.disksize && disk.virtualOffset + PAGE_SIZE <= g.disksize;
    SwappedDownFields(g.state, j);
    WriteSlot(g, page, disk, writeback, j);
    Discard(g, page, j);
    MoveDown(g, page, disk, j);
    FlagSwapped(g, page, j);
  }

  lemma HeadReserve(s: State)
    requires Inv(s) && s.lists.eviction != []
    ensures var v := s.lists.eviction[0];
      && v in s.desc
      && DiskFit(s, v) && s.desc[v].va != 0 && s.desc[v].va % PAGE_SIZE == 0
  {
    W.HeadOfEviction(s);
    var v := s.lists.eviction[0];
    assert RoleOk(s.desc[v]);
    InBounds(s, v);
    if s.desc[v].hasReserve {
      JobFits(s, v, s.desc[v].reserve.value);
      X.ChosenFacts(s, v, s.desc[v].reserve.value);
    } else if s.lists.diskFree != [] {
      X.ChosenFacts(s, v, s.lists.diskFree[0]);
    }
  }

  lemma MarkedFields(s: State, v: nat)
    requires v in s.desc
    ensures var t := Marked(Detach(s, Eviction, v), v);
      && v in t.desc && t.desc[v] == s.desc[v].(list := None, migrating := true)
      && t.lists.diskFree == s.lists.diskFree && t.lists.diskReserve == s.lists.diskReserve
      && t.mem.dirty == s.mem.dirty && t.mem.accessed == s.mem.accessed
      && (DiskFit(s, v) ==> DiskFit(t, v))
  {}

  lemma DetachedVa(s: State, v: nat)
    requires v in s.desc
    ensures v in Detach(s, Eviction, v).desc && Detach(s, Eviction, v).desc[v].va == s.desc[v].va
  {}

  lemma HeldIs(s: State, j: Job)
    requires Fits(s, j)
    ensures Detach(s, Eviction, j.victim) == Do(Pick, s, j)
    ensures j.victim in s.desc && Marked(Do(Pick, s, j), j.victim) == Held(s, j)
  {
    hide Do;
    PickIs(s, j);
    MarkIs(Do(Pick, s, j), j);
  }

  /** The page taken off the eviction list is evicted; null when it needs a free
      slot and there is none. */
  method EvictVictim(g: P.Pager, page: UserPage, release: bool, ghost s: State) returns (disk: UserPage?)
    requires g.Valid() && g.Known(page) && Inv(s) && s.lists.eviction != [] && page.addr == s.lists.eviction[0]
    requires page.addr in s.desc && g.state == Detach(s, Eviction, page.addr)
    modifies g.Repr()
    ensures g.Valid() && g.pages == old(g.pages)
    ensures disk == null <==> W.DiskFor(s, page.addr, s.lists.diskFree) == None
    ensures disk != null ==> g.Known(disk) && W.DiskFor(s, page.addr, s.lists.diskFree) == Some(disk.addr)
    ensures disk != null ==> Fits(s, X.JobFor(s, page.addr, disk.addr))
    ensures disk != null ==> g.state == Run(X.Worker(release), s, X.JobFor(s, page.addr, disk.addr))
  {
    hide P.Pager.Valid, Inv, X.Chosen, Fits, Do, Run, Marked, Held, SwappedDown, Detach, DiskFit, Going;
    W.HeadOfEviction(s);
    HeadReserve(s);
    MarkedFields(s, page.addr);
    g.Look(page);
    DetachedVa(s, page.addr);
    MarkVictim(g, page);
    g.Look(page);
    g.MemoryIs();
    var dirty := page.va in g.memory.dirty;
    var writeback := dirty || !page.hasReserve;
    var (reserved, oldOffset) := (page.hasReserve, page.virtualOffset);
    disk := TakeDisk(g, page);
    if disk == null {
      return;
    }
    ghost var j := X.JobFor(s, page.addr, disk.addr);
    JobFits(s, page.addr, disk.addr);
    HeldGoes(s, page.addr, disk.addr);
    HeldIs(s, j);
    assert g.state == Do(Take, Held(s, j), j);
    MigrateDown(g, page, disk, writeback, j);
    OnTheWay(s, j);
    if reserved {
      SettleReserved(g, page, disk, oldOffset, release, j);
    } else {
      SettleFresh(g, page, disk, oldOffset, release, j);
    }
    RunIs(s, j, release);
  }

  /** One pass of the scalar worker; false when it stops for want of a slot. */
  method EvictionWorker(g: P.Pager) returns (ok: bool)
    requires g.Valid() && Inv(g.state)
    modifies g.Repr()
    ensures g.Valid() && g.pages == old(g.pages)
    ensures ok <==> W.EvictOne(old(g.state)).Some?
    ensures ok ==> W.EvictOne(old(g.state)) == Some(g.state)
  {
    hide P.Pager.Valid, Inv, Run, X.Worker, X.JobFor, Fits;
    ghost var s := g.state;
    var victim := g.Dequeue(Eviction);
    if victim == null {
      return true;
    }
    var disk := EvictVictim(g, victim, true, s);
    ok := disk != null;
  }
}
