/** The fault handlers and the policy's entry points on the heap, against the
    functions of `Fetch`, `Faults` and `Runs`. */
module Handlers {
  import opened Machine
  import opened Fifo
  import opened Fetch
  import opened Evict
  import opened SwapIn
  import opened Lifetime
  import opened Faults
  import P = Pager
  import X = Exchange
  import W = Workers
  import E = Eviction
  import Scan
  import Reclaim
  import SC = SecondChance

  /** How a search for a frame ended. */
  datatype Found = Frame | NoSlot | NoMemory | Spins

  ghost predicate Reports(g: P.Pager, r: Outcome, found: Found, page: UserPage?)
    reads g
  {
    match r
    case Got(t, f) => found == Frame && page != null && g.Known(page) && page.addr == f && g.state == t
    case NoDiskPage => found == NoSlot && page == null
    case OutOfMemory => found == NoMemory && page == null
    case Stuck => found == Spins && page == null
  }

  /** `fetch_free_asynch`.  With nothing free, nothing to evict and too little on
      the lists to reclaim, the loop of a single thread would spin for ever. */
  method FetchFreeAsynch(g: P.Pager) returns (found: Found, page: UserPage?)
    requires g.Valid() && Inv(g.state)
    modifies g.Repr()
    ensures g.Valid() && g.pages == old(g.pages) && Reports(g, FetchFree(old(g.state), 12), found, page)
  {
    hide P.Pager.Valid, Inv, Reclaim.Adopt, Reclaim.PolicyOf, SC.Reclaim, Run, X.Worker, X.JobFor, Fits;
    var priority: nat := 12;
    while priority > 0
      invariant priority <= 12 && g.Valid() && g.pages == old(g.pages) && Inv(g.state)
      invariant FetchFree(g.state, priority) == FetchFree(old(g.state), 12)
    {
      ghost var s := g.state;
      page := g.Dequeue(DramFree);
      if page != null {
        return Frame, page;
      }
      g.Entries(Active);
      g.Entries(Inactive);
      g.MemoryIs();
      var rounds := g.activeList.numentries + g.inactiveList.numentries > g.dramsize / (PAGE_SIZE * 2);
      if rounds {
        ReclaimKeeps(s, SC.SWAP_CLUSTER_COUNT, priority);
        var n := Scan.DirectAllocate(g, SC.SWAP_CLUSTER_COUNT, priority);
        priority := priority - 1;
      }
      s := g.state;
      var victim := g.Dequeue(Eviction);
      if victim != null {
        page := E.EvictVictim(g, victim, false, s);
        return if page == null then NoSlot else Frame, page;
      }
      if !rounds {
        return Spins, null;
      }
    }
    return NoMemory, null;
  }

  /** `lrudisk_pagefault`. */
  method PageFaultFrame(g: P.Pager) returns (found: Found, page: UserPage?)
    requires g.Valid() && Inv(g.state)
    modifies g.Repr()
    ensures g.Valid() && g.pages == old(g.pages) && Reports(g, PageFault(old(g.state)), found, page)
  {
    hide P.Pager.Valid, Inv, FetchFree;
    found, page := FetchFreeAsynch(g);
    if page != null {
      g.SetMigrating(page, true);
    }
  }

  // ----- mapping a page that was read -----

  /** The descriptor of the frame now stands for the slot, as the page's reserve. */
  method BecomeReserve(g: P.Pager, freepage: UserPage, fileOffset: nat, page: UserPage)
    requires g.Valid() && g.Known(freepage) && g.Known(page)
    modifies g.Repr()
    ensures g.Valid() && g.pages == old(g.pages) && freepage.addr in old(g.state.desc)
    ensures g.state == SetDesc(old(g.state), freepage.addr, ReserveFor(old(g.state.desc[freepage.addr]), fileOffset, page.addr))
  {
    hide P.Pager.Valid, SetDesc;
    E.DescSet();
    E.SetAgain();
    g.SetOffset(freepage, fileOffset);
    g.SetInDram(freepage, false);
    g.SetSwappedOut(freepage, true);
    g.SetMigrating(freepage, false);
    g.SetReserve(freepage, page);
    g.SetHasReserve(freepage, true);
  }

  function ReserveFor(d: Desc, fileOffset: nat, page: nat): Desc {
    d.(offset := fileOffset, inDram := false, swappedOut := true, migrating := false, reserve := Some(page), hasReserve := true)
  }

  method BecomeResident(g: P.Pager, page: UserPage, offset: nat, freepage: UserPage)
    requires g.Valid() && g.Known(freepage) && g.Known(page)
    modifies g.Repr()
    ensures g.Valid() && g.pages == old(g.pages) && page.addr in old(g.state.desc)
    ensures g.state == SetDesc(old(g.state), page.addr, ResidentWith(old(g.state.desc[page.addr]), offset, freepage.addr))
  {
    hide P.Pager.Valid, SetDesc;
    E.DescSet();
    E.SetAgain();
    g.SetOffset(page, offset);
    g.SetInDram(page, true);
    g.SetReserve(page, freepage);
    g.SetHasReserve(page, true);
  }

  function ResidentWith(d: Desc, offset: nat, reserve: nat): Desc {
    d.(offset := offset, inDram := true, reserve := Some(reserve), hasReserve := true)
  }

  /** UFFDIO_COPY with the bits it leaves behind. */
  method CopyIn(g: P.Pager, va: nat, bytes: Bytes, bits: Bits)
    requires g.Valid()
    modifies g.Repr()
    ensures g.Valid() && g.pages == old(g.pages)
    ensures g.state == old(g.state).(mem := Copy(old(g.state).mem, va, bytes, bits))
  {
    g.MemoryIs();
    hide P.Pager.Valid, Copy;
    g.SetMemory(Copy(g.memory, va, bytes, bits));
  }

  /** The flags that publish the page. */
  method Publish(g: P.Pager, page: UserPage)
    requires g.Valid() && g.Known(page)
    modifies g.Repr()
    ensures g.Valid() && g.pages == old(g.pages) && page.addr in old(g.state.desc)
    ensures g.state == Published(old(g.state), page.addr)
  {
    hide P.Pager.Valid, SetDesc;
    E.DescSet();
    E.SetAgain();
    g.SetSwappedOut(page, false);
    g.SetMigrating(page, false);
  }

  ghost function Published(s: State, p: nat): State
    requires p in s.desc
  {
    SetDesc(s, p, s.desc[p].(swappedOut := false, migrating := false))
  }

  ghost function WithMemory(s: State, m: Memory): State {
    s.(mem := m)
  }

  ghost function Reserving(s: State, f: nat, fileOffset: nat, p: nat): State
    requires f in s.desc
  {
    SetDesc(s, f, ReserveFor(s.desc[f], fileOffset, p))
  }

  ghost function Residing(s: State, p: nat, offset: nat, f: nat): State
    requires p in s.desc
  {
    SetDesc(s, p, ResidentWith(s.desc[p], offset, f))
  }

  lemma InstallMemory(s: State, j: Job, x: X.View, m: Memory)
    requires Fits(s, j)
    ensures WithMemory(X.Install(s, j, x), m) == X.Install(s, j, x.(mem := m))
  {}

  lemma InstallReserving(s: State, j: Job, x: X.View, o: nat)
    requires Fits(s, j)
    ensures var t := X.Install(s, j, x);
      j.disk in t.desc && Reserving(t, j.disk, o, j.victim) == X.Install(s, j, x.(disk := ReserveFor(x.disk, o, j.victim)))
  {
    E.InstallDisk(s, j, x, ReserveFor(x.disk, o, j.victim));
  }

  lemma InstallResiding(s: State, j: Job, x: X.View, o: nat)
    requires Fits(s, j)
    ensures var t := X.Install(s, j, x);
      j.victim in t.desc && Residing(t, j.victim, o, j.disk) == X.Install(s, j, x.(victim := ResidentWith(x.victim, o, j.disk)))
  {
    E.InstallVictim(s, j, x, ResidentWith(x.victim, o, j.disk));
  }

  lemma InstallPublished(s: State, j: Job, x: X.View)
    requires Fits(s, j)
    ensures var t := X.Install(s, j, x);
      j.victim in t.desc && Published(t, j.victim) == X.Install(s, j, x.(victim := x.victim.(swappedOut := false, migrating := false)))
  {
    E.InstallVictim(s, j, x, x.victim.(swappedOut := false, migrating := false));
  }

  lemma FinishInstalls(s: State, j: Job, bytes: Bytes, bits: Bits)
    requires Fits(s, j)
    ensures var (v, d) := (s.desc[j.victim], s.desc[j.disk]);
      FinishRead(s, j.victim, j.disk, bytes, bits) == X.Install(s, j, X.View(
        ResidentWith(v, d.offset, j.disk).(swappedOut := false, migrating := false, list := Some(Inactive)),
        ReserveFor(d, v.offset, j.victim).(list := Some(DiskReserve)),
        s.lists.(inactive := s.lists.inactive + [j.victim], diskReserve := s.lists.diskReserve + [j.disk]),
        Copy(s.mem, v.va, bytes, bits)))
  {}

  ghost function Chained(s: State, p: nat, f: nat, m: Memory): State
    requires p in s.desc && f in s.desc
  {
    var u := Reserving(WithMemory(s, m), f, s.desc[p].offset, p);
    var v := Residing(u, p, s.desc[f].offset, f);
    Published(Enqueue(Enqueue(v, DiskReserve, f), Inactive, p), p)
  }

  lemma ChainInstalls(s: State, j: Job, m: Memory)
    requires Fits(s, j) && j.victim in s.desc && j.disk in s.desc
    ensures var (v, d) := (s.desc[j.victim], s.desc[j.disk]);
      Chained(s, j.victim, j.disk, m) == X.Install(s, j, X.View(
        ResidentWith(v, d.offset, j.disk).(swappedOut := false, migrating := false, list := Some(Inactive)),
        ReserveFor(d, v.offset, j.victim).(list := Some(DiskReserve)),
        s.lists.(inactive := s.lists.inactive + [j.victim], diskReserve := s.lists.diskReserve + [j.disk]),
        m))
  {
    hide X.Install, Fits, WithMemory, Reserving, Residing, Published, Enqueue, ReserveFor, ResidentWith;
    var (x, v, d) := (X.ViewOf(s, j), s.desc[j.victim], s.desc[j.disk]);
    E.InstallSelf(s, j);
    InstallMemory(s, j, x, m);
    var x1 := x.(mem := m);
    InstallReserving(s, j, x1, v.offset);
    var x2 := x1.(disk := ReserveFor(d, v.offset, j.victim));
    InstallResiding(s, j, x2, d.offset);
    var x3 := x2.(victim := ResidentWith(v, d.offset, j.disk));
    E.InstallEnqueue(s, j, x3, DiskReserve);
    var x4 := x3.(disk := x3.disk.(list := Some(DiskReserve)), lists := x3.lists.(diskReserve := x3.lists.diskReserve + [j.disk]));
    E.InstallEnqueue(s, j, x4, Inactive);
    var x5 := x4.(victim := x4.victim.(list := Some(Inactive)), lists := x4.lists.(inactive := x4.lists.inactive + [j.victim]));
    InstallPublished(s, j, x5);
  }

  lemma FinishIs(s: State, p: nat, f: nat, bytes: Bytes, bits: Bits)
    requires p in s.desc && f in s.desc && p != f
    ensures Chained(s, p, f, Copy(s.mem, s.desc[p].va, bytes, bits)) == FinishRead(s, p, f, bytes, bits)
  {
    var j := Job(p, f, s.desc[p].va, false, 0);
    hide Chained, FinishRead, X.Install, ReserveFor, ResidentWith, Copy;
    ChainInstalls(s, j, Copy(s.mem, s.desc[p].va, bytes, bits));
    FinishInstalls(s, j, bytes, bits);
  }

  /** What the asserts of a swap-in test of the page and the frame for it. */
  ghost predicate Arriving(s: State, p: nat, f: nat) {
    && p in s.desc && f in s.desc && var (dp, df) := (s.desc[p], s.desc[f]);
    && !dp.inDram && dp.swappedOut && dp.migrating && dp.list == None && dp.reserve == None
    && dp.va != 0 && dp.va % PAGE_SIZE == 0 && dp.offset + PAGE_SIZE <= s.disksize
    && df.inDram && df.list == None && df.va == 0 && df.offset + PAGE_SIZE <= s.dramsize
  }

  lemma LoanedArrives(s: State, p: nat, f: nat)
    requires Inv(s) && Loaned(s, p, f)
    ensures Arriving(s, p, f)
  {
    assert RoleOk(s.desc[p]) && RoleOk(s.desc[f]);
    E.InBounds(s, p);
    E.InBounds(s, f);
  }

  /** The page that was read is mapped, gets its frame, and keeps its slot as a
      reserve; putting it on the inactive list and clearing its flags publishes it. */
  method FinishSwapIn(g: P.Pager, page: UserPage, freepage: UserPage, bytes: Bytes, bits: Bits)
    requires g.Valid() && g.Known(page) && g.Known(freepage) && page != freepage
    requires Arriving(g.state, page.addr, freepage.addr)
    modifies g.Repr()
    ensures g.Valid() && g.pages == old(g.pages)
    ensures page.addr in old(g.state.desc) && freepage.addr in old(g.state.desc) && page.addr != freepage.addr
    ensures g.state == FinishRead(old(g.state), page.addr, freepage.addr, bytes, bits)
  {
    hide P.Pager.Valid, FinishRead, Copy;
    g.Look(page);
    g.Look(freepage);
    g.MemoryIs();
    ghost var s := g.state;
    assert freepage.inDram && freepage.list == null;
    assert page.swappedOut && page.migrating && page.list == null && !page.inDram;
    assert page.virtualOffset < g.disksize && page.virtualOffset + PAGE_SIZE <= g.disksize;
    assert freepage.virtualOffset < g.dramsize && freepage.virtualOffset + PAGE_SIZE <= g.dramsize;
    assert page.va != 0 && page.va % PAGE_SIZE == 0;
    var (offset, fileOffset) := (freepage.virtualOffset, page.virtualOffset);
    CopyIn(g, page.va, bytes, bits);
    BecomeReserve(g, freepage, fileOffset, page);
    BecomeResident(g, page, offset, freepage);
    g.Look(freepage);
    g.Enqueue(DiskReserve, freepage);
    g.Look(page);
    g.Enqueue(Inactive, page);
    Publish(g, page);
    FinishIs(s, page.addr, freepage.addr, bytes, bits);
  }

  // ----- the handlers -----

  /** A failed handler leaves `found` to say why. */
  ghost predicate Ended(g: P.Pager, r: Result, found: Found)
    reads g
  {
    match r
    case Ok(t) => found == Frame && g.state == t
    case Failed(NoDiskPage) => found == NoSlot
    case Failed(OutOfMemory) => found == NoMemory
    case Failed(_) => found == Spins
  }

  /** What the slot of a page on disk holds at this moment. */
  method ReadSlot(g: P.Pager, page: UserPage) returns (bytes: Bytes)
    requires g.Valid() && g.Known(page) && !page.inDram
    ensures bytes == Content(g.state, page.addr)
  {
    g.Look(page);
    g.MemoryIs();
    bytes := if page.virtualOffset in g.memory.disk then g.memory.disk[page.virtualOffset] else ZeroPage();
  }

  /** `handle_missing_fault` with `lrudisk_swapin_external_async`: the read runs
      while a frame is found, and `late` tells whether the device had delivered
      before that or only after. */
  method HandleMissingFault(g: P.Pager, page: UserPage, late: bool, bits: Bits) returns (found: Found)
    requires g.Valid() && Inv(g.state) && g.Known(page) && SwappedOut(g.state, page.addr)
    modifies g.Repr()
    ensures g.Valid() && g.pages == old(g.pages)
    ensures Ended(g, MissingFault(old(g.state), page.addr, late, bits), found)
  {
    hide P.Pager.Valid, Inv, FetchFree, FinishRead, Content, Served, Loaned;
    ghost var p := page.addr;
    SwappedOutOnList(g.state, p);
    StartReadKeeps(g.state, p);
    StartReadBounds(g.state, p);
    g.SetMigrating(page, true);
    g.Look(page);
    assert page.list == g.diskActiveList;
    var ret := g.TryRemove(DiskActive, g.diskActiveList, page);
    assert ret == 0;
    ghost var s := g.state;
    assert s == StartRead(old(g.state), p);
    g.Look(page);
    g.MemoryIs();
    assert !page.inDram;
    assert page.virtualOffset < g.disksize && page.virtualOffset + PAGE_SIZE <= g.disksize;
    var early := ReadSlot(g, page);
    var freepage;
    found, freepage := FetchFreeAsynch(g);
    if freepage != null {
      FetchKeeps(s, 12);
      LoanSurvives(s, g.state, freepage.addr, p);
      ServedInv(s, g.state, freepage.addr);
      LoanedArrives(g.state, p, freepage.addr);
      g.Look(page);
      g.Look(freepage);
      assert freepage.inDram;
      var bytes := ReadSlot(g, page);
      FinishSwapIn(g, page, freepage, if late then bytes else early, bits);
    }
  }

  lemma SwappedOutOnList(s: State, p: nat)
    requires Inv(s) && SwappedOut(s, p)
    ensures p in s.desc && p in s.lists.diskActive && !s.desc[p].inDram && !StartRead(s, p).desc[p].inDram
  {
    assert Machine.Linked(s, p) && RoleOk(s.desc[p]);
  }

  lemma ServedInv(s: State, t: State, f: nat)
    requires Served(s, t, f)
    ensures Inv(t)
  {}

  lemma StartReadBounds(s: State, p: nat)
    requires Inv(s) && SwappedOut(s, p)
    ensures p in s.desc && s.desc[p].list == Some(DiskActive) && !s.desc[p].inDram
    ensures var d := StartRead(s, p).desc[p]; d.offset == s.desc[p].offset && d.offset + PAGE_SIZE <= s.disksize
    ensures StartRead(s, p).disksize == s.disksize
  {
    assert RoleOk(s.desc[p]);
    E.InBounds(s, p);
  }

  lemma Loaned1(s: State, t: State, f: nat)
    requires Served(s, t, f)
    ensures f in t.desc && t.desc[f].list == None && t.desc[f].va == 0 && t.desc[f].inDram
  {}

  /** `handle_first_fault`. */
  method HandleFirstFault(g: P.Pager, va: nat, bits: Bits) returns (found: Found)
    requires g.Valid() && Inv(g.state) && Aligned(va)
    modifies g.Repr()
    ensures g.Valid() && g.pages == old(g.pages)
    ensures Ended(g, FirstFault(old(g.state), va, bits), found)
  {
    hide P.Pager.Valid, Inv, PageFault, Served, MapFresh, ZeroPage, Copy;
    assert va != 0;
    var newpage;
    found, newpage := PageFaultFrame(g);
    if newpage == null {
      return;
    }
    PageFaultKeeps(old(g.state));
    ghost var s := g.state;
    Loaned1(old(g.state), s, newpage.addr);
    g.Look(newpage);
    var page := g.FindPage(va);
    if page != null {
      assert newpage.list == null && newpage.va == 0;
      g.Enqueue(DramFree, newpage);
    } else {
      MapPage(g, newpage, va, bits);
    }
  }

  /** A free frame becomes the page at `va`. */
  method NamePage(g: P.Pager, page: UserPage, va: nat)
    requires g.Valid() && g.Known(page)
    modifies g.Repr()
    ensures g.Valid() && g.pages == old(g.pages) && page.addr in old(g.state.desc)
    ensures g.state == SetDesc(old(g.state), page.addr, Named(old(g.state.desc[page.addr]), va))
  {
    hide P.Pager.Valid, SetDesc;
    E.DescSet();
    E.SetAgain();
    g.SetMigrating(page, true);
    g.SetSwappedOut(page, false);
    g.SetVa(page, va);
  }

  function Named(d: Desc, va: nat): Desc {
    d.(migrating := true, swappedOut := false, va := va)
  }

  lemma MapIs(s: State, f: nat, va: nat, bits: Bits)
    requires f in s.desc
    ensures var t := SetDesc(s, f, Named(s.desc[f], va)).(index := s.index[va := f], mem := Copy(s.mem, va, ZeroPage(), bits));
      Enqueue(Published(t, f), Inactive, f).(memAllocated := s.memAllocated + PAGE_SIZE) == MapFresh(s, f, va, bits)
  {
    hide ZeroPage, Copy;
    var d := s.desc[f].(va := va, migrating := false, swappedOut := false);
    assert s.desc[f := Named(s.desc[f], va)][f := d][f := d.(list := Some(Inactive))] == s.desc[f := d.(list := Some(Inactive))];
  }

  method MapPage(g: P.Pager, page: UserPage, va: nat, bits: Bits)
    requires g.Valid() && g.Known(page) && page.list == null && va !in g.state.index
    requires page.va == 0 && page.inDram && Aligned(va)
    modifies g.Repr()
    ensures g.Valid() && g.pages == old(g.pages) && page.addr in old(g.state.desc)
    ensures g.state == MapFresh(old(g.state), page.addr, va, bits)
  {
    hide P.Pager.Valid, ZeroPage, Copy, MapFresh;
    ghost var s := g.state;
    g.Look(page);
    assert page.va == 0;
    NamePage(g, page, va);
    g.Look(page);
    assert page.va != 0 && page.va % PAGE_SIZE == 0;
    g.AddPage(va, page);
    g.Look(page);
    assert page.inDram;
    CopyIn(g, va, ZeroPage(), bits);
    Publish(g, page);
    g.Look(page);
    assert page.list == null;
    g.Enqueue(Inactive, page);
    g.MemoryIs();
    g.SetAllocated(g.memAllocated + PAGE_SIZE);
    MapIs(s, page.addr, va, bits);
  }
}
