/** Where a run can stop: at "Out of memory" and nowhere else, while the machine
    has more than 64 frames and the program no more pages than there are slots. */
module Halting {
  import opened Machine
  import opened Fetch
  import opened SwapIn
  import opened Lifetime
  import opened Faults
  import opened Prefetching
  import opened Workers
  import opened Runs
  import Laws

  ghost predicate Roomy(s: State) {
    Frames(s) > 64 && |s.index| <= Slots(s)
  }

  /** A failed search for a frame leaves "Out of memory" as its only reason. */
  ghost predicate OnlyMemory(r: Result) {
    r.Failed? ==> r.why == OutOfMemory
  }

  lemma RoomySame(s: State, t: State)
    requires Roomy(s) && SameForUser(s, t)
    ensures Roomy(t)
  {}

  // ----- the frames handed out while a handler runs -----

  lemma NothingHeld(s: State, loan: set<nat>)
    requires Lends(s, loan) && forall p :: p in loan ==> p in s.desc && !s.desc[p].inDram
    ensures Laws.HeldFrames(s) == {}
  {}

  lemma OneMoreHeld(s: State, t: State, f: nat)
    requires Served(s, t, f)
    ensures |Laws.HeldFrames(t)| <= |Laws.HeldFrames(s)| + 1
  {
    hide Inv, SameForUser;
    SameKeys(s, t);
    forall p | p in Laws.HeldFrames(t) ensures p in Laws.HeldFrames(s) + {f} {
      assert p != f ==> p in s.desc && s.desc[p].list == None;
    }
    SubsetCard(Laws.HeldFrames(t), Laws.HeldFrames(s) + {f});
  }

  lemma FetchEnds(s: State)
    requires Inv(s) && Roomy(s) && |Laws.HeldFrames(s)| <= CORE_PREFETCH_RATE
    ensures FetchFree(s, 12).Got? || FetchFree(s, 12) == OutOfMemory
  {
    hide Inv, FetchFree;
    FetchSucceeds(s);
    FetchFindsSlot(s, 12);
  }

  lemma PageFaultEnds(s: State)
    requires Inv(s) && Roomy(s) && |Laws.HeldFrames(s)| <= CORE_PREFETCH_RATE
    ensures PageFault(s).Got? || PageFault(s) == OutOfMemory
  {
    hide Inv, FetchFree;
    FetchEnds(s);
  }

  lemma {:induction false} FetchManyEnds(s: State, n: nat)
    requires Inv(s) && Roomy(s) && |Laws.HeldFrames(s)| + n <= CORE_PREFETCH_RATE
    ensures FetchMany(s, n).Short? ==> FetchMany(s, n).why == OutOfMemory
    decreases n
  {
    hide Inv, PageFault, Roomy;
    if n > 0 {
      PageFaultEnds(s);
      var r := PageFault(s);
      if r.Got? {
        PageFaultKeeps(s);
        OneMoreHeld(s, r.state, r.frame);
        RoomySame(s, r.state);
        FetchManyEnds(r.state, n - 1);
      }
    }
  }

  // ----- batches that are too large -----

  /** Frames found for a batch are all handed out at once, so there cannot be more of
      them than there are frames. */
  lemma BatchFitsFrames(s: State, n: nat, loan: set<nat>)
    requires Inv(s) && Lends(s, loan) && FetchMany(s, n).All?
    ensures n <= Frames(s)
  {
    hide Inv, FetchMany;
    FetchManyKeeps(s, n, loan);
    var r := FetchMany(s, n);
    var t := r.states[n];
    AllHeld(s, r, loan);
    Laws.NoDupCard(r.frames);
    SubsetCard(SetOf(r.frames), Laws.HeldFrames(t));
    Laws.FramesLaw(t);
  }

  lemma AllHeld(s: State, r: Many, loan: set<nat>)
    requires Steady(s, r, loan)
    ensures var t := r.states[|r.frames|];
      Inv(t) && NoDup(r.frames) && SetOf(r.frames) <= Laws.HeldFrames(t) && Frames(t) == Frames(s)
  {
    hide Inv;
    var t := r.states[|r.frames|];
    assert SameForUser(s, t);
    forall f | f in SetOf(r.frames) ensures f in Laws.HeldFrames(t) {
      var i :| 0 <= i < |r.frames| && r.frames[i] == f;
      assert f in t.desc && FreeFrame(t.desc[f]);
    }
  }

  /** A machine with fewer frames than the pages to read ahead never finishes: it runs
      out of memory, out of slots, or spins. */
  lemma PrefetchNeedsFrames(s: State, base: nat, whens: seq<nat>, bits: seq<Bits>)
    requires Quiescent(s) && |Gather(s, base, CORE_PREFETCH_RATE).pages| > Frames(s)
    ensures Prefetch(s, base, whens, bits).Failed?
  {
    hide Inv, Gather, FetchMany, FinishAll, AllLoaned, Buffers, Steady, Lends;
    PrefetchReady(s, base);
    var g := Gather(s, base, CORE_PREFETCH_RATE);
    FramesOfSame(s, g.state);
    if FetchMany(g.state, |g.pages|).All? {
      BatchFitsFrames(g.state, |g.pages|, SetOf(g.pages));
    }
  }

  lemma FramesOfSame(s: State, t: State)
    requires SameForUser(s, t)
    ensures Frames(t) == Frames(s)
  {}

  // ----- the handlers -----

  lemma FirstFaultEnds(s: State, va: nat, bits: Bits)
    requires Quiescent(s) && Roomy(s)
    ensures OnlyMemory(FirstFault(s, va, bits))
  {
    hide Inv, PageFault, Roomy;
    NothingHeld(s, {});
    PageFaultEnds(s);
  }

  lemma MissingFaultEnds(s: State, p: nat, late: bool, bits: Bits)
    requires Quiescent(s) && Roomy(s) && SwappedOut(s, p)
    ensures OnlyMemory(MissingFault(s, p, late, bits))
  {
    hide Inv, FetchFree, StartRead, FinishRead, Roomy, SameForUser;
    StartReadKeeps(s, p);
    StartLends(s, p, {});
    StartReadVa(s, p);
    NothingHeld(StartRead(s, p), {} + {p});
    RoomySame(s, StartRead(s, p));
    FetchEnds(StartRead(s, p));
  }

  lemma PrefetchEnds(s: State, base: nat, whens: seq<nat>, bits: seq<Bits>)
    requires Quiescent(s) && Roomy(s)
    ensures OnlyMemory(Prefetch(s, base, whens, bits))
  {
    hide Inv, Gather, FetchMany, FinishAll, AllLoaned, Buffers, SameForUser, Steady, Roomy;
    PrefetchReady(s, base);
    GatherKeeps(s, base, CORE_PREFETCH_RATE, {});
    var g := Gather(s, base, CORE_PREFETCH_RATE);
    NothingHeld(g.state, SetOf(g.pages));
    RoomySame(s, g.state);
    FetchManyEnds(g.state, |g.pages|);
  }

  lemma HandleEnds(s: State, va: nat, env: Env)
    requires Quiescent(s) && Roomy(s) && Aligned(va)
    ensures OnlyMemory(Handle(s, va, env))
  {
    hide Inv, FirstFault, MissingFault, Prefetch, Roomy, SameForUser;
    if va !in s.index {
      FirstFaultEnds(s, va, env.bits);
    } else {
      SwappedOutPage(s, va);
      if s.desc[s.index[va]].swappedOut {
        SwappedOutHere(s, va);
        MissingFaultEnds(s, s.index[va], env.late, env.bits);
        if MissingFault(s, s.index[va], env.late, env.bits).Ok? {
          MissingFaultKeeps(s, s.index[va], env.late, env.bits);
          var t := MissingFault(s, s.index[va], env.late, env.bits).state;
          RoomySame(s, t);
          PrefetchEnds(t, va, env.whens, env.prefetchBits);
        }
      }
    }
  }

  // ----- nothing changes the sizes of DRAM and disk -----

  ghost predicate SameSizes(s: State, t: State) {
    t.dramsize == s.dramsize && t.disksize == s.disksize
  }

  lemma SizesOfSame(s: State, t: State)
    requires SameForUser(s, t)
    ensures SameSizes(s, t)
  {}

  lemma FirstFaultSizes(s: State, va: nat, bits: Bits)
    requires Quiescent(s) && FirstFault(s, va, bits).Ok?
    ensures SameSizes(s, FirstFault(s, va, bits).state)
  {
    hide Inv, PageFault, SameForUser;
    PageFaultKeeps(s);
    SizesOfSame(s, PageFault(s).state);
  }

  lemma HandleSizes(s: State, va: nat, env: Env)
    requires Quiescent(s) && Aligned(va) && Handle(s, va, env).Ok?
    ensures SameSizes(s, Handle(s, va, env).state)
  {
    hide Inv, FirstFault, MissingFault, Prefetch, SameForUser;
    if va !in s.index {
      FirstFaultSizes(s, va, env.bits);
    } else {
      SwappedOutPage(s, va);
      if s.desc[s.index[va]].swappedOut {
        SwappedOutHere(s, va);
        MissingFaultKeeps(s, s.index[va], env.late, env.bits);
        var t := MissingFault(s, s.index[va], env.late, env.bits).state;
        SizesOfSame(s, t);
        if env.prefetch {
          PrefetchKeeps(t, va, env.whens, env.prefetchBits);
          SizesOfSame(t, Prefetch(t, va, env.whens, env.prefetchBits).state);
        }
      }
    }
  }

  lemma {:induction false} UnmapSizes(s: State, va: nat, pages: nat)
    requires Quiescent(s)
    ensures SameSizes(s, UnmapRange(s, va, pages))
    decreases pages
  {
    hide Inv, Drop, Droppable;
    if pages > 0 {
      if va in s.index {
        DropOne(s, va);
        DropSizes(s, va);
        UnmapSizes(Drop(s, va), va + PAGE_SIZE, pages - 1);
      } else {
        UnmapSizes(s, va + PAGE_SIZE, pages - 1);
      }
    }
  }

  lemma DropSizes(s: State, va: nat)
    requires Droppable(s, va)
    ensures SameSizes(s, Drop(s, va))
  {}

  lemma AccessSizes(s: State, va: nat, env: Env)
    requires Quiescent(s) && Aligned(va) && Access(s, va, env).Ok?
    ensures SameSizes(s, Access(s, va, env).state)
  {
    hide Inv, Handle;
    if va !in s.mem.ram {
      HandleSizes(s, va, env);
      HandleKeeps(s, va, env);
      var t := Handle(s, va, env).state;
      if va !in t.mem.ram {
        HandleSizes(t, va, env.(prefetch := false));
      }
    }
  }

  lemma StepSizes(s: State, op: Op)
    requires Quiescent(s) && WellFormed(op) && Step(s, op).Next?
    ensures SameSizes(s, Step(s, op).state)
  {
    hide Inv, Access, FirstFault, EvictVector, KswapdPass, UnmapRange, SameForUser;
    match op
    case Load(va, i, env) => AccessSizes(s, va, env);
    case Store(va, i, b, env) =>
      AccessSizes(s, va, env);
      AccessKeeps(s, va, env);
    case Touch(va, env) => FirstFaultSizes(s, va, env.bits);
    case EvictBatch(n) =>
      VectorIsScalar(s, n);
      EvictTimesKeeps(s, n);
      SizesOfSame(s, EvictTimes(s, n).value);
    case Kswapd =>
      KswapdKeeps(s);
      SizesOfSame(s, KswapdPass(s));
    case Unmap(va, pages) => UnmapSizes(s, va, pages);
  }

  // ----- runs -----

  lemma AccessEnds(s: State, va: nat, env: Env)
    requires Quiescent(s) && Roomy(s) && Aligned(va) && |Touched(UserMemory(s), va)| <= Slots(s)
    ensures OnlyMemory(Access(s, va, env))
  {
    hide Inv, Handle, UserMemory, ZeroPage;
    HandleEnds(s, va, env);
    if va !in s.mem.ram && Handle(s, va, env).Ok? {
      HandleKeeps(s, va, env);
      HandleSizes(s, va, env);
      var t := Handle(s, va, env).state;
      AsManyPages(s);
      AsManyPages(t);
      if va in s.index {
        PageOfIndex(s, va);
      }
      HandleEnds(t, va, env.(prefetch := false));
    }
  }

  lemma AsManyPages(s: State)
    ensures |s.index| == |UserMemory(s)|
  {
    assert s.index.Keys == UserMemory(s).Keys;
    assert |s.index.Keys| == |s.index| && |UserMemory(s).Keys| == |UserMemory(s)|;
  }

  lemma PageOfIndex(s: State, va: nat)
    requires va in s.index
    ensures va in UserMemory(s)
  {}

  lemma StepEnds(s: State, op: Op)
    requires Quiescent(s) && Roomy(s) && WellFormed(op) && |PlainStep(UserMemory(s), op)| <= Slots(s)
    ensures Step(s, op).Halt? ==> Step(s, op).why == OutOfMemory
  {
    hide Inv, Access, FirstFault, EvictVector, KswapdPass, UnmapRange, UserMemory;
    match op
    case Load(va, i, env) => AccessEnds(s, va, env);
    case Store(va, i, b, env) =>
      var m := Touched(UserMemory(s), va);
      assert m[va := m[va][i := b]].Keys == m.Keys;
      assert |m[va := m[va][i := b]]| == |m[va := m[va][i := b]].Keys| && |m| == |m.Keys|;
      AccessEnds(s, va, env);
    case Touch(va, env) => FirstFaultEnds(s, va, env.bits);
    case EvictBatch(n) => DiskNeverRunsOut(s, n);
    case Kswapd =>
    case Unmap(_, _) =>
  }

  /** At no point of the run does the program hold more than `slots` pages. */
  ghost predicate Modest(m: map<nat, Bytes>, ops: seq<Op>, slots: nat)
    requires AllWellFormed(ops)
    decreases |ops|
  {
    |m| <= slots && (ops != [] ==> Modest(PlainStep(m, ops[0]), ops[1..], slots))
  }

  /** A run of a program that never holds more pages than there are slots, on a
      machine of more than 64 frames, stops nowhere but at "Out of memory": no
      eviction is without a slot, and no search for a frame hangs. */
  lemma {:induction false} RunHaltsOnlyOutOfMemory(s: State, ops: seq<Op>)
    requires Quiescent(s) && AllWellFormed(ops) && Frames(s) > 64 && Modest(UserMemory(s), ops, Slots(s))
    ensures Run(s, ops).Halt? ==> Run(s, ops).why == OutOfMemory
    decreases |ops|
  {
    hide Inv, Step, UserMemory, PlainStep;
    AsManyPages(s);
    if ops != [] {
      StepEnds(s, ops[0]);
      if Step(s, ops[0]).Next? {
        StepRefines(s, ops[0]);
        StepSizes(s, ops[0]);
        RunHaltsOnlyOutOfMemory(Step(s, ops[0]).state, ops[1..]);
      }
    }
  }

  // ----- a run that never stops -----

  /** A frame is left over for every page tracked, and one more. */
  ghost predicate Ample(s: State) {
    |s.index| < Frames(s) && |s.index| <= Slots(s)
  }

  lemma AmpleSame(s: State, t: State)
    requires Ample(s) && SameForUser(s, t)
    ensures Ample(t)
  {}

  lemma MappedFew(s: State)
    requires Inv(s)
    ensures |s.mem.ram| <= |s.index|
  {
    forall va | va in s.mem.ram ensures va in s.index { assert Mapped(s, va); }
    SubsetCard(s.mem.ram.Keys, s.index.Keys);
    assert |s.mem.ram| == |s.mem.ram.Keys| && |s.index| == |s.index.Keys|;
  }

  /** While the mapped pages and the frames handed out are fewer than the frames, one
      is free, and nothing is evicted for it. */
  lemma FreeServes(s: State)
    requires Inv(s) && |s.mem.ram| + |Laws.HeldFrames(s)| < Frames(s)
    ensures FetchFree(s, 12).Got? && PageFault(s).Got?
    ensures PageFault(s).state.mem.ram == s.mem.ram
  {
    Laws.FramesLaw(s);
    assert s.lists.dramFree != [];
    hide Inv;
    FreeHead(s);
    assert FetchFree(s, 12) == TakeFree(s);
  }

  lemma {:induction false} FetchManyServes(s: State, n: nat)
    requires Inv(s) && |s.mem.ram| + |Laws.HeldFrames(s)| + n <= Frames(s)
    ensures FetchMany(s, n).All?
    decreases n
  {
    hide Inv, PageFault;
    if n > 0 {
      FreeServes(s);
      PageFaultKeeps(s);
      var r := PageFault(s);
      OneMoreHeld(s, r.state, r.frame);
      FramesOfSame(s, r.state);
      FetchManyServes(r.state, n - 1);
    }
  }

  lemma FirstFaultServes(s: State, va: nat, bits: Bits)
    requires Quiescent(s) && Ample(s)
    ensures FirstFault(s, va, bits).Ok?
  {
    hide Inv, PageFault;
    NothingHeld(s, {});
    MappedFew(s);
    FreeServes(s);
  }

  lemma MissingFaultServes(s: State, p: nat, late: bool, bits: Bits)
    requires Quiescent(s) && Ample(s) && SwappedOut(s, p)
    ensures MissingFault(s, p, late, bits).Ok?
  {
    hide Inv, FetchFree, StartRead, FinishRead, SameForUser;
    var t := StartRead(s, p);
    StartReadKeeps(s, p);
    StartLends(s, p, {});
    StartReadVa(s, p);
    NothingHeld(t, {} + {p});
    AmpleSame(s, t);
    MappedFew(t);
    FreeServes(t);
  }

  /** Pages being read are tracked and not mapped. */
  lemma ReadsNotMapped(s: State, ps: seq<nat>)
    requires Inv(s) && NoDup(ps) && forall p :: p in ps ==> p in s.desc && Swapped(s.desc[p])
    ensures |s.mem.ram| + |ps| <= |s.index|
  {
    Laws.TrackedCard(s);
    Laws.MappedCard(s);
    hide Inv;
    Laws.NoDupCard(ps);
    var mapped := Laws.ResidentPages(s);
    SubsetCard(mapped + SetOf(ps), Laws.TrackedPages(s));
    assert mapped !! SetOf(ps);
    assert |mapped + SetOf(ps)| == |mapped| + |SetOf(ps)|;
  }

  lemma PrefetchServes(s: State, base: nat, whens: seq<nat>, bits: seq<Bits>)
    requires Quiescent(s) && Ample(s)
    ensures Prefetch(s, base, whens, bits).Ok?
  {
    hide Inv, Gather, FetchMany, FinishAll, AllLoaned, Buffers, SameForUser, Steady;
    PrefetchReady(s, base);
    GatherKeeps(s, base, CORE_PREFETCH_RATE, {});
    var g := Gather(s, base, CORE_PREFETCH_RATE);
    NothingHeld(g.state, SetOf(g.pages));
    AmpleSame(s, g.state);
    ReadsNotMapped(g.state, g.pages);
    FetchManyServes(g.state, |g.pages|);
  }

  lemma HandleServes(s: State, va: nat, env: Env)
    requires Quiescent(s) && Ample(s) && Aligned(va)
    ensures Handle(s, va, env).Ok?
  {
    hide Inv, FirstFault, MissingFault, Prefetch, SameForUser, Ample;
    if va !in s.index {
      FirstFaultServes(s, va, env.bits);
    } else {
      SwappedOutPage(s, va);
      if s.desc[s.index[va]].swappedOut {
        SwappedOutHere(s, va);
        MissingFaultServes(s, s.index[va], env.late, env.bits);
        MissingFaultKeeps(s, s.index[va], env.late, env.bits);
        var t := MissingFault(s, s.index[va], env.late, env.bits).state;
        AmpleSame(s, t);
        PrefetchServes(t, va, env.whens, env.prefetchBits);
      }
    }
  }

  /** The most pages that a program may hold so that no search for a frame is needed. */
  function RoomIn(dramsize: nat, disksize: nat): int {
    var (frames, slots) := (dramsize / PAGE_SIZE, disksize / PAGE_SIZE);
    if slots < frames then slots else frames - 1
  }

  function Room(s: State): int {
    RoomIn(s.dramsize, s.disksize)
  }

  lemma AccessServes(s: State, va: nat, env: Env)
    requires Quiescent(s) && Ample(s) && Aligned(va) && |Touched(UserMemory(s), va)| <= Room(s)
    ensures Access(s, va, env).Ok?
  {
    hide Inv, Handle, UserMemory, ZeroPage;
    HandleServes(s, va, env);
    if va !in s.mem.ram {
      HandleKeeps(s, va, env);
      HandleSizes(s, va, env);
      var t := Handle(s, va, env).state;
      AsManyPages(s);
      AsManyPages(t);
      if va in s.index {
        PageOfIndex(s, va);
      }
      HandleServes(t, va, env.(prefetch := false));
    }
  }

  lemma StepServes(s: State, op: Op)
    requires Quiescent(s) && Ample(s) && WellFormed(op) && |PlainStep(UserMemory(s), op)| <= Room(s)
    ensures Step(s, op).Next?
  {
    hide Inv, Access, FirstFault, EvictVector, KswapdPass, UnmapRange, UserMemory;
    match op
    case Load(va, i, env) => AccessServes(s, va, env);
    case Store(va, i, b, env) =>
      var m := Touched(UserMemory(s), va);
      assert m[va := m[va][i := b]].Keys == m.Keys;
      assert |m[va := m[va][i := b]]| == |m[va := m[va][i := b]].Keys| && |m| == |m.Keys|;
      AccessServes(s, va, env);
    case Touch(va, env) => FirstFaultServes(s, va, env.bits);
    case EvictBatch(n) => DiskNeverRunsOut(s, n);
    case Kswapd =>
    case Unmap(_, _) =>
  }

  /** A program that always leaves a frame over, and has slots for all its pages, never
      stops, whatever is reclaimed, evicted and read ahead meanwhile. */
  lemma {:induction false} RunNeverHalts(s: State, ops: seq<Op>)
    requires Quiescent(s) && AllWellFormed(ops) && Room(s) >= 0 && Modest(UserMemory(s), ops, Room(s))
    ensures Run(s, ops).Next?
    decreases |ops|
  {
    hide Inv, Step, UserMemory, PlainStep;
    AsManyPages(s);
    if ops != [] {
      StepServes(s, ops[0]);
      StepRefines(s, ops[0]);
      StepSizes(s, ops[0]);
      RunNeverHalts(Step(s, ops[0]).state, ops[1..]);
    }
  }

  // ----- a run that stops -----

  /** A quiet environment: nothing is read ahead and no bit is left behind. */
  const QUIET: Env := Env(false, Bits(false, false), false, [], [])

  lemma FirstTouchMaps(s: State, va: nat)
    requires Quiescent(s) && Aligned(va) && va !in s.index && s.lists.dramFree != []
    ensures var r := FirstFault(s, va, Bits(false, false));
      && r.Ok?
      && r.state.lists == s.lists.(dramFree := Without(s.lists.dramFree, s.lists.dramFree[0]),
                                   inactive := s.lists.inactive + [s.lists.dramFree[0]])
      && r.state.mem.accessed == s.mem.accessed - {va} && r.state.index == s.index[va := s.lists.dramFree[0]]
  {
    hide Inv, MapFresh, ZeroPage;
    FreeHead(s);
    PageFaultKeeps(s);
    var f := s.lists.dramFree[0];
    var t := Busy(TakeFree(s).state, f);
    assert FetchFree(s, 12) == TakeFree(s);
    assert PageFault(s) == Got(t, f);
    FreshShapes(t, f, va);
  }

  lemma FreshShapes(s: State, f: nat, va: nat)
    requires f in s.desc
    ensures var t := MapFresh(s, f, va, Bits(false, false));
      && t.lists == s.lists.(inactive := s.lists.inactive + [f])
      && t.mem.accessed == s.mem.accessed - {va} && t.index == s.index[va := f]
  {}

  /** With one frame, touching two pages stops the system at "Out of memory", however
      large the disk is: the lone page on the inactive list is never reclaimed. */
  lemma OneFrameRunsOut(s: State)
    requires Quiescent(s) && s.index == map[] && s.dramsize == PAGE_SIZE
    ensures Run(s, [Touch(PAGE_SIZE, QUIET), Touch(2 * PAGE_SIZE, QUIET)]) == Halt(OutOfMemory)
  {
    hide Inv, FirstFault;
    NothingLeaks(s);
    NothingAccessed(s);
    FirstTouchMaps(s, PAGE_SIZE);
    FirstFaultKeeps(s, PAGE_SIZE, QUIET.bits);
    FirstFaultSizes(s, PAGE_SIZE, QUIET.bits);
    var t := FirstFault(s, PAGE_SIZE, QUIET.bits).state;
    assert Without(s.lists.dramFree, s.lists.dramFree[0]) == [] by { WithoutHead(s.lists.dramFree); }
    SecondTouchFails(t);
    var (a, b) := (Touch(PAGE_SIZE, QUIET), Touch(2 * PAGE_SIZE, QUIET));
    assert Step(s, a) == Next(t, []) && Step(t, b) == Halt(OutOfMemory);
    assert [a, b][1..] == [b];
    RunTwo(s, t, a, b);
  }

  lemma RunTwo(s: State, t: State, a: Op, b: Op)
    requires Quiescent(s) && WellFormed(a) && WellFormed(b) && Step(s, a) == Next(t, []) && Quiescent(t)
    requires Step(t, b) == Halt(OutOfMemory)
    ensures Run(s, [a, b]) == Halt(OutOfMemory)
  {
    hide Inv, Step;
    assert [a, b][1..] == [b];
  }

  lemma NothingAccessed(s: State)
    requires Quiescent(s) && s.index == map[]
    ensures s.mem.accessed == {}
  {
    forall va: nat ensures va !in s.mem.ram {
      assert va in s.mem.ram ==> Mapped(s, va);
    }
  }

  lemma SecondTouchFails(s: State)
    requires Quiescent(s) && s.dramsize == PAGE_SIZE && s.mem.accessed == {}
    requires s.lists.dramFree == [] && s.lists.eviction == [] && |s.lists.inactive| == 1
    ensures FirstFault(s, 2 * PAGE_SIZE, QUIET.bits) == Failed(OutOfMemory)
  {
    hide Inv, FetchFree;
    OutOfMemoryIff(s);
  }
}
