/** Removing pages on the heap: `lrudisk_remove_page` and `extmem_munmap`. */
module Unmapping {
  import opened Machine
  import opened Fifo
  import opened Evict
  import opened Lifetime
  import P = Pager
  import E = Eviction
  import X = Exchange
  import R = Runs

  // ----- the assignments of lrudisk_remove_page -----

  function Bare(d: Desc): Desc {
    d.(va := 0, present := false)
  }

  ghost function Taken(s: State, p: nat, q: Queue): State
    requires p in s.desc
  {
    var u := Detach(SetDesc(s, p, s.desc[p].(migrating := true)), q, p);
    SetDesc(u, p, Bare(u.desc[p]))
  }

  ghost function SlotFreed(s: State, r: nat): State
    requires r in s.desc
  {
    var u := Detach(s, DiskReserve, r);
    Enqueue(SetDesc(u, r, u.desc[r].(hasReserve := false, reserve := None, present := false)), DiskFree, r)
  }

  ghost function Unpaired(s: State, p: nat): State
    requires p in s.desc
  {
    SetDesc(s, p, s.desc[p].(hasReserve := false, reserve := None))
  }

  ghost function Given(s: State, p: nat, q: Queue): State
    requires p in s.desc
  {
    var u := Enqueue(s, q, p);
    SetDesc(u, p, u.desc[p].(migrating := false))
  }

  lemma FreedAlone(s: State, p: nat)
    requires p in s.desc && s.desc[p].list.Some?
    requires s.desc[p].inDram ==> !s.desc[p].hasReserve && s.desc[p].reserve == None
    ensures s.desc[p].inDram ==> Given(Taken(s, p, s.desc[p].list.value), p, DramFree) == Freed(s, p)
    ensures !s.desc[p].inDram ==> Given(Unpaired(Taken(s, p, s.desc[p].list.value), p), p, DiskFree) == Freed(s, p)
  {
    var t := if s.desc[p].inDram then Given(Taken(s, p, s.desc[p].list.value), p, DramFree)
             else Given(Unpaired(Taken(s, p, s.desc[p].list.value), p), p, DiskFree);
    var u := Freed(s, p);
    assert t.desc[p] == u.desc[p];
    assert t.desc == u.desc && t.lists == u.lists;
  }

  lemma InstallTaken(s: State, j: Job, x: X.View, q: Queue)
    requires Fits(s, j)
    ensures var (t, l) := (X.Install(s, j, x), x.lists.Put(q, Without(x.lists.Get(q), j.victim)));
      j.victim in t.desc && Taken(t, j.victim, q)
        == X.Install(s, j, x.(victim := x.victim.(migrating := true, list := None, va := 0, present := false), lists := l))
  {
    hide SetDesc;
    var y := x.victim.(migrating := true);
    E.InstallVictim(s, j, x, y);
    var l := x.lists.Put(q, Without(x.lists.Get(q), j.victim));
    var x1 := x.(victim := y.(list := None), lists := l);
    InstallDetach(s, j, x.(victim := y), q);
    E.InstallHolds(s, j, x1);
    E.InstallVictim(s, j, x1, Bare(x1.victim));
  }

  lemma InstallDetach(s: State, j: Job, x: X.View, q: Queue)
    requires Fits(s, j)
    ensures var (t, l) := (X.Install(s, j, x), x.lists.Put(q, Without(x.lists.Get(q), j.victim)));
      j.victim in t.desc && Detach(t, q, j.victim) == X.Install(s, j, x.(victim := x.victim.(list := None), lists := l))
    ensures var (t, l) := (X.Install(s, j, x), x.lists.Put(q, Without(x.lists.Get(q), j.disk)));
      j.disk in t.desc && Detach(t, q, j.disk) == X.Install(s, j, x.(disk := x.disk.(list := None), lists := l))
  {
    E.InstallVictim(s, j, x, x.victim.(list := None));
    E.InstallDisk(s, j, x, x.disk.(list := None));
  }

  lemma InstallSlotFreed(s: State, j: Job, x: X.View)
    requires Fits(s, j)
    ensures var t := X.Install(s, j, x);
      j.disk in t.desc && SlotFreed(t, j.disk) == X.Install(s, j, x.(
        disk := x.disk.(hasReserve := false, reserve := None, present := false, list := Some(DiskFree)),
        lists := x.lists.(diskReserve := Without(x.lists.diskReserve, j.disk), diskFree := x.lists.diskFree + [j.disk])))
  {
    hide SetDesc, X.Install, Enqueue, Detach;
    InstallDetach(s, j, x, DiskReserve);
    var x1 := x.(disk := x.disk.(list := None), lists := x.lists.(diskReserve := Without(x.lists.diskReserve, j.disk)));
    E.InstallHolds(s, j, x1);
    var y := x1.disk.(hasReserve := false, reserve := None, present := false);
    E.InstallDisk(s, j, x1, y);
    E.InstallEnqueue(s, j, x1.(disk := y), DiskFree);
  }

  lemma InstallUnpaired(s: State, j: Job, x: X.View)
    requires Fits(s, j)
    ensures var t := X.Install(s, j, x);
      j.victim in t.desc && Unpaired(t, j.victim) == X.Install(s, j, x.(victim := x.victim.(hasReserve := false, reserve := None)))
  {
    E.InstallVictim(s, j, x, x.victim.(hasReserve := false, reserve := None));
  }

  lemma InstallGiven(s: State, j: Job, x: X.View)
    requires Fits(s, j)
    ensures var t := X.Install(s, j, x);
      j.victim in t.desc && Given(t, j.victim, DramFree) == X.Install(s, j, x.(
        victim := x.victim.(list := Some(DramFree), migrating := false), lists := x.lists.(dramFree := x.lists.dramFree + [j.victim])))
  {
    hide SetDesc, X.Install, Enqueue;
    E.InstallEnqueue(s, j, x, DramFree);
    var x1 := x.(victim := x.victim.(list := Some(DramFree)), lists := x.lists.(dramFree := x.lists.dramFree + [j.victim]));
    E.InstallHolds(s, j, x1);
    E.InstallVictim(s, j, x1, x1.victim.(migrating := false));
  }

  ghost function FreedView(x: X.View, j: Job, q: Queue): X.View {
    var l := x.lists.Put(q, Without(x.lists.Get(q), j.victim));
    X.View(
      x.victim.(va := 0, hasReserve := false, reserve := None, migrating := false, present := false, list := Some(DramFree)),
      x.disk.(hasReserve := false, reserve := None, present := false, list := Some(DiskFree)),
      l.(diskReserve := Without(l.diskReserve, j.disk), diskFree := l.diskFree + [j.disk], dramFree := l.dramFree + [j.victim]),
      x.mem)
  }

  lemma FreedPairIs(s: State, j: Job, q: Queue)
    requires Fits(s, j) && PairToFree(s, j, q)
    ensures Freed(s, j.victim) == X.Install(s, j, FreedView(X.ViewOf(s, j), j, q))
  {
    var (t, u) := (Freed(s, j.victim), X.Install(s, j, FreedView(X.ViewOf(s, j), j, q)));
    assert t.lists == u.lists;
    assert t.desc[j.victim] == u.desc[j.victim] && t.desc[j.disk] == u.desc[j.disk];
    assert t.desc == u.desc;
  }

  ghost predicate PairToFree(s: State, j: Job, q: Queue)
    requires Fits(s, j)
  {
    && s.desc[j.victim].inDram && s.desc[j.victim].hasReserve && s.desc[j.victim].reserve == Some(j.disk)
    && s.desc[j.victim].list == Some(q) && q in {Active, Inactive, Eviction}
  }

  lemma FreedPair(s: State, j: Job, q: Queue)
    requires Fits(s, j) && PairToFree(s, j, q)
    ensures j.victim in s.desc && j.disk in Taken(s, j.victim, q).desc
    ensures j.victim in SlotFreed(Taken(s, j.victim, q), j.disk).desc
    ensures Given(Unpaired(SlotFreed(Taken(s, j.victim, q), j.disk), j.victim), j.victim, DramFree) == Freed(s, j.victim)
  {
    var x := X.ViewOf(s, j);
    FreedPairIs(s, j, q);
    E.InstallSelf(s, j);
    InstallTaken(s, j, x, q);
    PairChain(s, j, x, q);
  }

  lemma PairChain(s: State, j: Job, x: X.View, q: Queue)
    requires Fits(s, j) && q in {Active, Inactive, Eviction}
    ensures var t := X.Install(s, j, x.(victim := x.victim.(migrating := true, list := None, va := 0, present := false),
                                        lists := x.lists.Put(q, Without(x.lists.Get(q), j.victim))));
      && j.disk in t.desc && j.victim in SlotFreed(t, j.disk).desc
      && Given(Unpaired(SlotFreed(t, j.disk), j.victim), j.victim, DramFree) == X.Install(s, j, FreedView(x, j, q))
  {
    hide SetDesc, X.Install, SlotFreed, Unpaired, Given;
    var x1 := x.(victim := x.victim.(migrating := true, list := None, va := 0, present := false),
                 lists := x.lists.Put(q, Without(x.lists.Get(q), j.victim)));
    InstallSlotFreed(s, j, x1);
    var x2 := x1.(
        disk := x1.disk.(hasReserve := false, reserve := None, present := false, list := Some(DiskFree)),
        lists := x1.lists.(diskReserve := Without(x1.lists.diskReserve, j.disk), diskFree := x1.lists.diskFree + [j.disk]));
    InstallUnpaired(s, j, x2);
    var x3 := x2.(victim := x2.victim.(hasReserve := false, reserve := None));
    InstallGiven(s, j, x3);
  }

  // ----- lrudisk_remove_page -----

  /** What holds of the page at `p` when it is removed. */
  ghost predicate Removable(s: State, p: nat) {
    && p in s.desc && s.desc[p].list.Some? && p in s.lists.Get(s.desc[p].list.value)
    && (s.desc[p].inDram && !s.desc[p].hasReserve ==> s.desc[p].reserve == None)
    && (s.desc[p].inDram && s.desc[p].hasReserve ==>
          && s.desc[p].list.value in {Active, Inactive, Eviction}
          && s.desc[p].reserve.Some? && s.desc[p].reserve.value in s.desc && s.desc[p].reserve.value != p
          && s.desc[p].reserve.value in s.lists.diskReserve
          && s.desc[s.desc[p].reserve.value].reserve == Some(p))
    && (!s.desc[p].inDram ==> s.desc[p].swappedOut && s.desc[p].reserve == None)
  }

  lemma TakenFields(s: State, p: nat, q: Queue)
    requires p in s.desc
    ensures var t := Taken(s, p, q);
      && p in t.desc && t.desc[p] == s.desc[p].(va := 0, present := false, migrating := true, list := None)
      && (forall r {:trigger t.desc[r]} :: r in s.desc && r != p ==> r in t.desc && t.desc[r] == s.desc[r])
      && (q != DiskReserve ==> t.lists.diskReserve == s.lists.diskReserve)
  {}

  lemma SlotFreedElsewhere(s: State, r: nat, p: nat)
    requires r in s.desc && p in s.desc && r != p
    ensures p in SlotFreed(s, r).desc && SlotFreed(s, r).desc[p] == s.desc[p]
  {}

  /** The page leaves its list and loses its address. */
  method TakeOff(g: P.Pager, page: UserPage)
    requires g.Valid() && g.Known(page) && page.addr in g.state.desc && g.state.desc[page.addr].list.Some?
    requires page.addr in g.state.lists.Get(g.state.desc[page.addr].list.value)
    modifies g.Repr()
    ensures g.Valid() && g.pages == old(g.pages)
    ensures g.state == Taken(old(g.state), page.addr, old(g.state.desc)[page.addr].list.value)
  {
    hide P.Pager.Valid, Lists.Get;
    ghost var q := g.state.desc[page.addr].list.value;
    g.Look(page);
    g.SetMigrating(page, true);
    g.Look(page);
    var ret := g.TryRemove(q, page.list, page);
    ghost var u := g.state;
    g.SetPresent(page, false);
    g.SetVa(page, 0);
    E.SetTwice(u, page.addr, u.desc[page.addr].(present := false), Bare(u.desc[page.addr]));
  }

  method FreeSlot(g: P.Pager, reserve: UserPage)
    requires g.Valid() && g.Known(reserve) && reserve.addr in g.state.lists.diskReserve
    modifies g.Repr()
    ensures g.Valid() && g.pages == old(g.pages) && reserve.addr in old(g.state.desc)
    ensures g.state == SlotFreed(old(g.state), reserve.addr)
  {
    hide P.Pager.Valid, SetDesc;
    E.DescSet();
    E.SetAgain();
    var ret := g.TryRemove(DiskReserve, g.diskReserveList, reserve);
    g.SetHasReserve(reserve, false);
    g.SetReserve(reserve, null);
    g.SetPresent(reserve, false);
    g.Look(reserve);
    g.Enqueue(DiskFree, reserve);
  }

  method GiveBack(g: P.Pager, page: UserPage, q: Queue)
    requires g.Valid() && g.Known(page) && page.list == null
    modifies g.Repr()
    ensures g.Valid() && g.pages == old(g.pages) && page.addr in old(g.state.desc)
    ensures g.state == Given(old(g.state), page.addr, q)
  {
    hide P.Pager.Valid;
    g.Enqueue(q, page);
    g.SetMigrating(page, false);
  }

  method RemovePage(g: P.Pager, page: UserPage)
    requires g.Valid() && g.Known(page) && Removable(g.state, page.addr)
    modifies g.Repr()
    ensures g.Valid() && g.pages == old(g.pages)
    ensures g.state == Freed(old(g.state), page.addr)
  {
    hide P.Pager.Valid, Taken, SlotFreed, Given, Freed;
    ghost var (s, p) := (g.state, page.addr);
    ghost var q := s.desc[p].list.value;
    g.Look(page);
    TakenFields(s, p, q);
    TakeOff(g, page);
    g.Look(page);
    if page.inDram {
      if page.hasReserve {
        var reserve := page.reserve;
        assert reserve != null;
        g.Look(reserve);
        g.Alone(reserve.reserve, page);
        assert reserve.reserve == page;
        g.OnItsList(DiskReserve, reserve);
        assert reserve.list == g.diskReserveList;
        ghost var j := Job(p, reserve.addr, s.desc[p].va, false, 0);
        FreedPair(s, j, q);
        SlotFreedElsewhere(g.state, reserve.addr, p);
        FreeSlot(g, reserve);
        E.Unreserve(g, page);
      } else {
        FreedAlone(s, p);
      }
      g.Look(page);
      GiveBack(g, page, DramFree);
    } else {
      assert page.swappedOut;
      assert page.reserve == null;
      FreedAlone(s, p);
      E.Unreserve(g, page);
      g.Look(page);
      GiveBack(g, page, DiskFree);
    }
  }

  // ----- extmem_munmap -----

  function ClearPage(m: Memory, va: nat): Memory {
    m.(ram := m.ram - {va}, dirty := m.dirty - {va}, accessed := m.accessed - {va})
  }

  /** The kernel's munmap over `n` pages from `va`. */
  function Cleared(m: Memory, va: nat, n: nat): Memory
    decreases n
  {
    if n == 0 then m else ClearPage(Cleared(m, va, n - 1), va + (n - 1) * PAGE_SIZE)
  }

  lemma RemovableTracked(s: State, va: nat)
    requires Inv(s) && Settled(s) && va in s.index
    ensures s.index[va] in s.desc && Removable(s, s.index[va]) && Droppable(s, va) && !s.desc[s.index[va]].migrating
  {
    assert Indexed(s, va);
    var p := s.index[va];
    assert RoleOk(s.desc[p]) && Machine.Linked(s, p) && Paired(s, p);
    if s.desc[p].inDram && s.desc[p].hasReserve {
      assert RoleOk(s.desc[s.desc[p].reserve.value]) && Machine.Linked(s, s.desc[p].reserve.value);
    }
  }

  /** What was done to the page and the page table by the time it is freed. */
  ghost function Stripped(s: State, p: nat, va: nat, m: Memory): State
    requires p in s.desc
  {
    s.(desc := s.desc[p := s.desc[p].(migrating := true)], index := s.index - {va}, mem := m)
  }

  lemma StrippedFrees(s: State, va: nat, m: Memory)
    requires Droppable(s, va) && Removable(s, s.index[va])
    ensures var (p, d) := (s.index[va], Drop(s, va));
      && Removable(Stripped(s, p, va, m), p)
      && Freed(Stripped(s, p, va, m), p).(memAllocated := s.memAllocated - PAGE_SIZE) == d.(mem := m)
      && d.mem == ClearPage(s.mem, va)
  {
    var p := s.index[va];
    var (t, u) := (Freed(Stripped(s, p, va, m), p), Freed(s, p));
    assert t.desc == u.desc && t.lists == u.lists;
  }

  lemma ClearIsNothing(s: State, va: nat)
    requires Inv(s) && va !in s.index
    ensures ClearPage(s.mem, va) == s.mem
  {
    assert va in s.mem.ram ==> Mapped(s, va);
    assert s.mem.ram - {va} == s.mem.ram && s.mem.dirty - {va} == s.mem.dirty && s.mem.accessed - {va} == s.mem.accessed;
  }

  /** One tracked page of the range goes; what it held stays mapped until the end. */
  method UnmapPage(g: P.Pager, page: UserPage, va: nat, ghost t: State)
    requires g.Valid() && g.Known(page) && Inv(t) && Settled(t) && va in t.index && page.addr == t.index[va]
    requires g.state == t.(mem := g.state.mem)
    modifies g.Repr()
    ensures g.Valid() && g.pages == old(g.pages) && Droppable(t, va)
    ensures g.state == Drop(t, va).(mem := old(g.state).mem)
  {
    hide P.Pager.Valid, Inv, Freed, Drop, Removable, Droppable;
    RemovableTracked(t, va);
    StrippedFrees(t, va, g.state.mem);
    ghost var n := t.memAllocated;
    g.Look(page);
    assert !page.migrating;
    g.SetMigrating(page, true);
    g.DeletePage(va);
    ghost var u := g.state;
    RemovePage(g, page);
    FreedKeepsCount(u, page.addr);
    g.MemoryIs();
    g.SetAllocated(g.memAllocated - PAGE_SIZE);
  }

  lemma FreedKeepsCount(s: State, p: nat)
    requires Removable(s, p)
    ensures Freed(s, p).memAllocated == s.memAllocated
  {}

  /** `extmem_munmap` over `n` pages from `va`. */
  method Munmap(g: P.Pager, va: nat, n: nat)
    requires g.Valid() && Quiescent(g.state)
    modifies g.Repr()
    ensures g.Valid() && g.pages == old(g.pages) && g.state == R.UnmapRange(old(g.state), va, n)
  {
    hide P.Pager.Valid, Inv, Drop, ClearPage, Settled, Droppable;
    ghost var (s, t) := (g.state, g.state);
    var boundary, i := va, 0;
    while i < n
      invariant i <= n && boundary == va + i * PAGE_SIZE
      invariant g.Valid() && g.pages == old(g.pages) && Quiescent(t)
      invariant R.UnmapRange(t, boundary, n - i) == R.UnmapRange(s, va, n)
      invariant g.state == t.(mem := s.mem) && t.mem == Cleared(s.mem, va, i)
    {
      var page := g.FindPage(boundary);
      if page != null {
        R.DropOne(t, boundary);
        RemovableTracked(t, boundary);
        StrippedFrees(t, boundary, s.mem);
        UnmapPage(g, page, boundary, t);
        t := Drop(t, boundary);
      } else {
        ClearIsNothing(t, boundary);
      }
      boundary, i := boundary + PAGE_SIZE, i + 1;
    }
    g.MemoryIs();
    g.SetMemory(Cleared(g.memory, va, n));
  }
}
