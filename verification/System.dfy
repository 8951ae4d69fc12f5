/** The whole pager on the heap: its start, the signal handler, and runs of
    operations, which read what plain memory would. */
module System {
  import opened Machine
  import opened Fifo
  import opened Fetch
  import opened SwapIn
  import opened Lifetime
  import opened Faults
  import opened Prefetching
  import opened Handlers
  import P = Pager
  import R = Runs
  import U = Unmapping
  import V = VectorEviction
  import A = ReadAhead
  import Reclaim
  import Scan
  import Boot
  import Halting
  import SC = SecondChance

  /** `uswap_sig_handler` for a fault in the page at `va`. */
  method SignalHandler(g: P.Pager, va: nat, env: R.Env) returns (found: Found)
    requires g.Valid() && Quiescent(g.state) && Aligned(va)
    modifies g.Repr()
    ensures g.Valid() && g.pages == old(g.pages)
    ensures Ended(g, R.Handle(old(g.state), va, env), found)
  {
    hide P.Pager.Valid, Inv, FirstFault, MissingFault, Prefetch;
    ghost var s := g.state;
    var page := g.FindPage(va);
    if page == null {
      found := HandleFirstFault(g, va, env.bits);
      return;
    }
    SwappedOutPage(s, va);
    g.Look(page);
    if page.swappedOut {
      R.SwappedOutHere(s, va);
      found := HandleMissingFault(g, page, env.late, env.bits);
      if found == Frame {
        MissingFaultKeeps(s, s.index[va], env.late, env.bits);
        if env.prefetch {
          found := A.CoreTryPrefetch(g, va, env.whens, env.prefetchBits);
        }
      }
    } else {
      found := Frame;
    }
  }

  /** A thread touches the page until it is there; a second fault in a row on the
      same address does not read ahead. */
  method Touch(g: P.Pager, va: nat, env: R.Env) returns (found: Found)
    requires g.Valid() && Quiescent(g.state) && Aligned(va)
    modifies g.Repr()
    ensures g.Valid() && g.pages == old(g.pages)
    ensures Ended(g, R.Access(old(g.state), va, env), found)
  {
    hide P.Pager.Valid, Inv, R.Handle;
    ghost var s := g.state;
    g.MemoryIs();
    if va in g.memory.ram {
      return Frame;
    }
    found := SignalHandler(g, va, env);
    if found == Frame {
      R.HandleKeeps(s, va, env);
      g.MemoryIs();
      if va !in g.memory.ram {
        found := SignalHandler(g, va, env.(prefetch := false));
      }
    }
  }

  /** One pass of kswapd. */
  method KswapdOnce(g: P.Pager)
    requires g.Valid() && Quiescent(g.state)
    modifies g.Repr()
    ensures g.Valid() && g.pages == old(g.pages) && g.state == R.KswapdPass(old(g.state))
  {
    hide P.Pager.Valid, Inv, Reclaim.Adopt, SC.Reclaim;
    g.Entries(Active);
    g.Entries(Inactive);
    g.MemoryIs();
    var low := R.LOW_WATER_THRESHOLD * g.dramsize / (PAGE_SIZE * 100);
    if g.activeList.numentries + g.inactiveList.numentries > low {
      var n := Scan.DirectAllocate(g, g.activeList.numentries + g.inactiveList.numentries - low, 12);
    } else {
      Scan.ReachedStart(g.state);
    }
  }

  /** What a run that went on, or stopped, leaves in `found`. */
  predicate Stops(r: R.Next, found: Found) {
    match r
    case Next(_, _) => found == Frame
    case Halt(NoDiskPage) => found == NoSlot
    case Halt(OutOfMemory) => found == NoMemory
    case Halt(_) => found == Spins
  }

  /** One operation of the program or of a background worker: what a load read, or
      the assert at which it stops. */
  method Execute(g: P.Pager, op: R.Op) returns (found: Found, out: seq<Byte>)
    requires g.Valid() && Quiescent(g.state) && R.WellFormed(op)
    modifies g.Repr()
    ensures g.Valid() && g.pages == old(g.pages)
    ensures Stops(R.Step(old(g.state), op), found)
    ensures found == Frame ==> R.Step(old(g.state), op) == R.Next(g.state, out)
  {
    hide P.Pager.Valid, Inv, R.Access, FirstFault, R.KswapdPass, R.UnmapRange;
    ghost var s := g.state;
    found, out := Frame, [];
    match op
    case Load(va, i, env) =>
      found := Touch(g, va, env);
      if found == Frame {
        R.AccessKeeps(s, va, env);
        g.MemoryIs();
        out := [g.memory.ram[va][i]];
        g.SetMemory(g.memory.(accessed := g.memory.accessed + {va}));
      }
    case Store(va, i, b, env) =>
      found := Touch(g, va, env);
      if found == Frame {
        R.AccessKeeps(s, va, env);
        g.MemoryIs();
        g.SetMemory(g.memory.(ram := g.memory.ram[va := g.memory.ram[va][i := b]],
                              dirty := g.memory.dirty + {va}, accessed := g.memory.accessed + {va}));
      }
    case Touch(va, env) =>
      found := HandleFirstFault(g, va, env.bits);
    case EvictBatch(n) =>
      var ok := V.EvictionWorkerVector(g, n);
      found := if ok then Frame else NoSlot;
    case Kswapd =>
      KswapdOnce(g);
    case Unmap(va, pages) =>
      U.Munmap(g, va, pages);
  }

  /** Any run of operations reads and leaves what plain memory would. */
  method ExecuteAll(g: P.Pager, ops: seq<R.Op>) returns (found: Found, out: seq<Byte>)
    requires g.Valid() && Quiescent(g.state) && R.AllWellFormed(ops)
    modifies g.Repr()
    ensures g.Valid() && g.pages == old(g.pages)
    ensures Stops(R.Run(old(g.state), ops), found)
    ensures found == Frame ==> R.Run(old(g.state), ops) == R.Next(g.state, out)
    ensures found == Frame ==> Quiescent(g.state) && (UserMemory(g.state), out) == R.PlainRun(UserMemory(old(g.state)), ops)
  {
    hide P.Pager.Valid, Inv, R.Step;
    ghost var s := g.state;
    found, out := Frame, [];
    var i := 0;
    assert ops[0..] == ops;
    while i < |ops|
      invariant i <= |ops| && g.Valid() && g.pages == old(g.pages) && Quiescent(g.state) && R.AllWellFormed(ops[i..])
      invariant found == Frame && R.Run(s, ops) == Then(out, R.Run(g.state, ops[i..]))
    {
      ghost var t := g.state;
      assert ops[i..][0] == ops[i] && ops[i..][1..] == ops[i + 1..];
      var more;
      found, more := Execute(g, ops[i]);
      if found != Frame {
        return;
      }
      R.StepRefines(t, ops[i]);
      ThenTwice(out, more, R.Run(g.state, ops[i + 1..]));
      out, i := out + more, i + 1;
    }
    assert ops[i..] == [] && out + [] == out;
    R.RunIsPlain(s, ops);
  }

  ghost function Then(out: seq<Byte>, r: R.Next): R.Next {
    if r.Halt? then r else R.Next(r.state, out + r.out)
  }

  lemma ThenTwice(a: seq<Byte>, b: seq<Byte>, r: R.Next)
    ensures Then(a, Then(b, r)) == Then(a + b, r)
  {
    if r.Next? {
      assert a + (b + r.out) == a + b + r.out;
    }
  }

  /** From a fresh start on, any run reads what plain memory would.  With more than 64
      frames, and slots for all pages the program holds at a time, it stops at no
      assert but "Out of memory"; and if a frame is always left over besides, nowhere. */
  method RunFromStart(dramsize: nat, disksize: nat, disk: map<nat, Bytes>, ops: seq<R.Op>) returns (found: Found, out: seq<Byte>)
    requires forall k: nat :: k < disksize / PAGE_SIZE ==> k * PAGE_SIZE in disk
    requires R.AllWellFormed(ops)
    ensures found == Frame ==> out == R.PlainRun(map[], ops).1
    ensures dramsize / PAGE_SIZE > 64 && Halting.Modest(map[], ops, disksize / PAGE_SIZE) ==>
              found == Frame || found == NoMemory
    ensures var room := Halting.RoomIn(dramsize, disksize);
      room >= 0 && Halting.Modest(map[], ops, room) ==> found == Frame
  {
    var g := Boot.LrudiskInit(dramsize, disksize, disk);
    ghost var s := g.state;
    if dramsize / PAGE_SIZE > 64 && Halting.Modest(map[], ops, disksize / PAGE_SIZE) {
      Halting.RunHaltsOnlyOutOfMemory(s, ops);
    }
    if Halting.Room(s) >= 0 && Halting.Modest(map[], ops, Halting.Room(s)) {
      Halting.RunNeverHalts(s, ops);
    }
    found, out := ExecuteAll(g, ops);
  }
}
