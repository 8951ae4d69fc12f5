/** Whole runs of the paging system, and the plain memory they amount to. */
module Runs {
  import opened Machine
  import opened Fetch
  import opened SwapIn
  import opened Lifetime
  import opened Faults
  import opened Prefetching
  import opened Workers
  import Laws
  import Reclaim
  import X = Exchange
  import SC = SecondChance

  const LOW_WATER_THRESHOLD: nat := 85

  /** What the environment decides in a fault: when reads complete, what bits the
      kernel leaves, whether the access pattern calls for a prefetch. */
  datatype Env = Env(late: bool, bits: Bits, prefetch: bool, whens: seq<nat>, prefetchBits: seq<Bits>)

  datatype Op =
    | Load(va: nat, i: nat, env: Env)
    | Store(va: nat, i: nat, b: Byte, env: Env)
    | Touch(va: nat, env: Env)
    | EvictBatch(n: nat)
    | Kswapd
    | Unmap(va: nat, pages: nat)

  predicate WellFormed(op: Op) {
    match op
    case Load(va, i, _) => Aligned(va) && i < PAGE_SIZE
    case Store(va, i, _, _) => Aligned(va) && i < PAGE_SIZE
    case Touch(va, _) => Aligned(va)
    case EvictBatch(_) => true
    case Kswapd => true
    case Unmap(va, _) => Aligned(va)
  }

  // ----- the fault handler -----

  /** `uswap_sig_handler` for a fault at the page `va`. */
  ghost function Handle(s: State, va: nat, env: Env): (r: Result)
    requires Quiescent(s) && Aligned(va)
  {
    if va !in s.index then FirstFault(s, va, env.bits)
    else
      SwappedOutPage(s, va);
      var p := s.index[va];
      if s.desc[p].swappedOut then
        SwappedOutHere(s, va);
        var r := MissingFault(s, p, env.late, env.bits);
        if r.Failed? then r
        else
          MissingFaultKeeps(s, p, env.late, env.bits);
          if env.prefetch then Prefetch(r.state, va, env.whens, env.prefetchBits) else r
      else Ok(s)
  }

  lemma SwappedOutHere(s: State, va: nat)
    requires Quiescent(s) && va in s.index && s.index[va] in s.desc && s.desc[s.index[va]].swappedOut
    ensures SwappedOut(s, s.index[va]) && s.desc[s.index[va]].va == va
  {
    assert Indexed(s, va) && RoleOk(s.desc[s.index[va]]);
  }

  lemma ResidentHere(s: State, va: nat)
    requires Quiescent(s) && va in s.index
    ensures s.index[va] in s.desc && s.desc[s.index[va]].va == va
    ensures !s.desc[s.index[va]].swappedOut <==> va in s.mem.ram
  {
    assert Indexed(s, va) && RoleOk(s.desc[s.index[va]]) && Backed(s, s.index[va]);
    if va in s.mem.ram {
      assert Mapped(s, va);
    }
  }

  /** After a fault is handled the page is mapped and the user's memory is what it
      was, with zeros at a page touched for the first time.  Pages read ahead may
      push the faulting page out again only after it was there. */
  lemma HandleKeeps(s: State, va: nat, env: Env)
    requires Quiescent(s) && Aligned(va) && Handle(s, va, env).Ok?
    ensures var t := Handle(s, va, env).state;
      && Quiescent(t)
      && UserMemory(t) == (if va in s.index then UserMemory(s) else UserMemory(s)[va := ZeroPage()])
      && va in t.index
      && (!env.prefetch ==> va in t.mem.ram)
  {
    hide Inv, UserMemory, FirstFault, MissingFault, Prefetch, ZeroPage;
    if va !in s.index {
      FirstFaultKeeps(s, va, env.bits);
      MappedIsTracked(Handle(s, va, env).state, va);
    } else {
      ResidentHere(s, va);
      if s.desc[s.index[va]].swappedOut {
        SwappedOutHere(s, va);
        MissingFaultKeeps(s, s.index[va], env.late, env.bits);
        var t := MissingFault(s, s.index[va], env.late, env.bits).state;
        SameUser(s, t);
        if env.prefetch {
          PrefetchKeeps(t, va, env.whens, env.prefetchBits);
          SameUser(t, Prefetch(t, va, env.whens, env.prefetchBits).state);
        }
      }
    }
  }

  lemma MappedIsTracked(s: State, va: nat)
    requires Quiescent(s) && va in s.mem.ram
    ensures va in s.index
  {
    assert Mapped(s, va);
  }

  // ----- loads and stores -----

  /** An access faults until the page is there.  A thread that faults again on the
      address it has just faulted on does not read ahead. */
  ghost function Access(s: State, va: nat, env: Env): (r: Result)
    requires Quiescent(s) && Aligned(va)
  {
    if va in s.mem.ram then Ok(s)
    else
      var r := Handle(s, va, env);
      if r.Failed? || va in r.state.mem.ram then r
      else
        HandleKeeps(s, va, env);
        Handle(r.state, va, env.(prefetch := false))
  }

  ghost function Touched(m: map<nat, Bytes>, va: nat): map<nat, Bytes> {
    if va in m then m else m[va := ZeroPage()]
  }

  lemma AccessKeeps(s: State, va: nat, env: Env)
    requires Quiescent(s) && Aligned(va) && Access(s, va, env).Ok?
    ensures var t := Access(s, va, env).state;
      Quiescent(t) && va in t.mem.ram && UserMemory(t) == Touched(UserMemory(s), va)
  {
    hide Inv, Handle, ZeroPage;
    if va in s.mem.ram {
      MappedIsTracked(s, va);
    } else {
      HandleKeeps(s, va, env);
      var t := Handle(s, va, env).state;
      if va !in t.mem.ram {
        HandleKeeps(t, va, env.(prefetch := false));
      }
    }
  }

  function Loaded(s: State, va: nat): State {
    s.(mem := s.mem.(accessed := s.mem.accessed + {va}))
  }

  function Stored(s: State, va: nat, i: nat, b: Byte): State
    requires va in s.mem.ram && i < PAGE_SIZE
  {
    s.(mem := s.mem.(ram := s.mem.ram[va := s.mem.ram[va][i := b]],
                     dirty := s.mem.dirty + {va}, accessed := s.mem.accessed + {va}))
  }

  lemma LoadedKeeps(s: State, va: nat)
    requires Quiescent(s) && va in s.mem.ram
    ensures Quiescent(Loaded(s, va)) && UserMemory(Loaded(s, va)) == UserMemory(s)
    ensures va in UserMemory(s) && UserMemory(s)[va] == s.mem.ram[va]
  {
    var t := Loaded(s, va);
    LoadedParts(s, va);
    LoadedMemory(s, va);
    MappedIsTracked(s, va);
    ResidentHere(s, va);
    assert Mapped(s, va);
  }

  lemma LoadedParts(s: State, va: nat)
    requires ListsOk(s) && RolesOk(s) && PairsOk(s) && PlacesOk(s) && IndexOk(s)
    ensures var t := Loaded(s, va); ListsOk(t) && RolesOk(t) && PairsOk(t) && PlacesOk(t) && IndexOk(t)
  {
    RestParts(s, Loaded(s, va));
  }

  /** Five parts of the invariant do not look at the memory at all. */
  lemma RestParts(s: State, t: State)
    requires t == s.(mem := t.mem)
    requires ListsOk(s) && RolesOk(s) && PairsOk(s) && PlacesOk(s) && IndexOk(s)
    ensures ListsOk(t) && RolesOk(t) && PairsOk(t) && PlacesOk(t) && IndexOk(t)
  {
    SameListsOk(s, t);
    forall x | x in t.desc ensures RoleOk(t.desc[x]) { assert RoleOk(s.desc[x]); }
    forall x | x in t.desc ensures Paired(t, x) { assert Paired(s, x); }
    forall x | x in t.desc ensures Tracked(t, x) { assert Tracked(s, x); }
    forall va | va in t.index ensures Indexed(t, va) { assert Indexed(s, va); }
    PlacesStay(s, t);
  }

  lemma LoadedMemory(s: State, va: nat)
    requires MemoryOk(s) && va in s.mem.ram
    ensures MemoryOk(Loaded(s, va)) && UserMemory(Loaded(s, va)) == UserMemory(s)
  {
    var t := Loaded(s, va);
    forall x ensures Content(t, x) == Content(s, x) {}
    forall x | x in t.desc ensures Backed(t, x) { assert Backed(s, x); }
    forall v | v in t.mem.ram ensures Mapped(t, v) { assert Mapped(s, v); }
    assert UserMemory(t) == UserMemory(s);
  }

  lemma StoredMemory(s: State, va: nat, i: nat, b: Byte)
    requires RolesOk(s) && PairsOk(s) && IndexOk(s) && MemoryOk(s) && va in s.mem.ram && i < PAGE_SIZE
    ensures MemoryOk(Stored(s, va, i, b))
  {
    var t := Stored(s, va, i, b);
    forall x | x in t.desc ensures Backed(t, x) {
      assert Backed(s, x) && Paired(s, x) && RoleOk(s.desc[x]);
    }
    forall v | v in t.mem.ram ensures Mapped(t, v) { assert Mapped(s, v); }
  }

  lemma StoredUser(s: State, va: nat, i: nat, b: Byte)
    requires IndexOk(s) && MemoryOk(s) && va in s.mem.ram && i < PAGE_SIZE
    ensures va in UserMemory(s)
    ensures UserMemory(Stored(s, va, i, b)) == UserMemory(s)[va := UserMemory(s)[va][i := b]]
  {
    var t := Stored(s, va, i, b);
    assert Mapped(s, va) && Indexed(s, va);
    forall v | v in s.index && v != va ensures Content(t, s.index[v]) == Content(s, s.index[v]) {
      assert Indexed(s, v);
    }
  }

  lemma StoredKeeps(s: State, va: nat, i: nat, b: Byte)
    requires Quiescent(s) && va in s.mem.ram && i < PAGE_SIZE
    ensures Quiescent(Stored(s, va, i, b))
    ensures va in UserMemory(s)
    ensures UserMemory(Stored(s, va, i, b)) == UserMemory(s)[va := UserMemory(s)[va][i := b]]
  {
    RestParts(s, Stored(s, va, i, b));
    StoredMemory(s, va, i, b);
    StoredUser(s, va, i, b);
  }

  // ----- background work and unmapping -----

  lemma EvictOneKeeps(s: State)
    requires Quiescent(s) && EvictOne(s).Some?
    ensures Quiescent(EvictOne(s).value) && SameForUser(s, EvictOne(s).value)
  {
    if s.lists.eviction == [] {
      SameForUserRefl(s);
    } else {
      var v, d := FirstEviction(s);
      EvictSettles(s, v, d);
    }
  }

  lemma EvictSettles(s: State, v: nat, d: nat)
    requires Quiescent(s) && X.Chosen(s, v, d) && d in s.desc
    ensures Settled(X.Exchanged(s, v, d, true)) && SameForUser(s, X.Exchanged(s, v, d, true))
  {
    hide Inv, SameForUser;
    X.ExchangeKeeps(s, v, d, true);
  }

  lemma {:induction false} EvictTimesKeeps(s: State, n: nat)
    requires Quiescent(s) && EvictTimes(s, n).Some?
    ensures Quiescent(EvictTimes(s, n).value) && SameForUser(s, EvictTimes(s, n).value)
    decreases n
  {
    hide Inv, EvictOne, SameForUser;
    SameForUserRefl(s);
    if n > 0 {
      EvictOneKeeps(s);
      EvictTimesKeeps(EvictOne(s).value, n - 1);
      SameForUserTrans(s, EvictOne(s).value, EvictTimes(s, n).value);
    }
  }

  function LowWatermark(s: State): nat {
    LOW_WATER_THRESHOLD * s.dramsize / (PAGE_SIZE * 100)
  }

  ghost function KswapdPass(s: State): (t: State) {
    Reclaim.Adopt(s, SC.KswapdPass(Reclaim.PolicyOf(s), LowWatermark(s)).policy)
  }

  lemma KswapdKeeps(s: State)
    requires Quiescent(s)
    ensures Quiescent(KswapdPass(s)) && SameForUser(s, KswapdPass(s))
  {
    hide Inv, SC.KswapdPass, SameForUser;
    var x := SC.KswapdPass(Reclaim.PolicyOf(s), LowWatermark(s)).policy;
    SC.KswapdRearranges(Reclaim.PolicyOf(s), LowWatermark(s));
    Reclaim.AdoptKeeps(s, x);
  }

  /** `extmem_munmap`, page by page. */
  ghost function UnmapRange(s: State, va: nat, pages: nat): (t: State)
    requires Quiescent(s)
    ensures Quiescent(t)
    decreases pages
  {
    if pages == 0 then s
    else if va in s.index then
      DropOne(s, va);
      UnmapRange(Drop(s, va), va + PAGE_SIZE, pages - 1)
    else UnmapRange(s, va + PAGE_SIZE, pages - 1)
  }

  lemma DropOne(s: State, va: nat)
    requires Quiescent(s) && va in s.index
    ensures Droppable(s, va) && Quiescent(Drop(s, va)) && UserMemory(Drop(s, va)) == UserMemory(s) - {va}
    ensures Drop(s, va).index == s.index - {va}
  {
    ResidentHere(s, va);
    DropKeeps(s, va);
    DropSettles(s, va);
  }

  lemma DropSettles(s: State, va: nat)
    requires Quiescent(s) && Droppable(s, va)
    ensures Settled(Drop(s, va)) && Drop(s, va).index == s.index - {va}
  {
    DropDescIs(s, va);
  }

  // ----- runs -----

  /** One operation: the next state and the byte a load returns, or the assert at
      which the system stops. */
  datatype Next = Next(state: State, out: seq<Byte>) | Halt(why: Outcome)

  ghost function Step(s: State, op: Op): (r: Next)
    requires Quiescent(s) && WellFormed(op)
  {
    match op
    case Load(va, i, env) =>
      var r := Access(s, va, env);
      if r.Failed? then Halt(r.why)
      else
        AccessKeeps(s, va, env);
        Next(Loaded(r.state, va), [r.state.mem.ram[va][i]])
    case Store(va, i, b, env) =>
      var r := Access(s, va, env);
      if r.Failed? then Halt(r.why)
      else
        AccessKeeps(s, va, env);
        Next(Stored(r.state, va, i, b), [])
    case Touch(va, env) =>
      var r := FirstFault(s, va, env.bits);
      if r.Failed? then Halt(r.why) else Next(r.state, [])
    case EvictBatch(n) =>
      var r := EvictVector(s, n);
      if r == None then Halt(NoDiskPage) else Next(r.value, [])
    case Kswapd => Next(KswapdPass(s), [])
    case Unmap(va, pages) => Next(UnmapRange(s, va, pages), [])
  }

  /** The memory a program believes it has: pages that spring into being as zeros. */
  ghost function RemoveRange(m: map<nat, Bytes>, va: nat, pages: nat): map<nat, Bytes>
    decreases pages
  {
    if pages == 0 then m else RemoveRange(m - {va}, va + PAGE_SIZE, pages - 1)
  }

  ghost function PlainStep(m: map<nat, Bytes>, op: Op): (r: map<nat, Bytes>)
    requires WellFormed(op)
  {
    match op
    case Load(va, _, _) => Touched(m, va)
    case Store(va, i, b, _) => Touched(m, va)[va := Touched(m, va)[va][i := b]]
    case Touch(va, _) => Touched(m, va)
    case EvictBatch(_) => m
    case Kswapd => m
    case Unmap(va, pages) => RemoveRange(m, va, pages)
  }

  ghost function PlainOut(m: map<nat, Bytes>, op: Op): (out: seq<Byte>)
    requires WellFormed(op)
  {
    if op.Load? then [Touched(m, op.va)[op.va][op.i]] else []
  }

  lemma {:induction false} UnmapIsRemoval(s: State, va: nat, pages: nat)
    requires Quiescent(s)
    ensures UserMemory(UnmapRange(s, va, pages)) == RemoveRange(UserMemory(s), va, pages)
    decreases pages
  {
    hide Inv, Drop;
    if pages > 0 {
      if va in s.index {
        DropOne(s, va);
        UnmapIsRemoval(Drop(s, va), va + PAGE_SIZE, pages - 1);
      } else {
        assert UserMemory(s) - {va} == UserMemory(s);
        UnmapIsRemoval(s, va + PAGE_SIZE, pages - 1);
      }
    }
  }

  lemma FirstFaultIsTouch(s: State, va: nat, bits: Bits)
    requires Quiescent(s) && Aligned(va) && FirstFault(s, va, bits).Ok?
    ensures Quiescent(FirstFault(s, va, bits).state)
    ensures UserMemory(FirstFault(s, va, bits).state) == Touched(UserMemory(s), va)
  {
    hide Inv, FirstFault;
    FirstFaultKeeps(s, va, bits);
    assert va in UserMemory(s) <==> va in s.index;
  }

  /** Every operation does to the user's memory what it does to plain memory, and a
      load returns the byte that plain memory holds. */
  lemma StepRefines(s: State, op: Op)
    requires Quiescent(s) && WellFormed(op) && Step(s, op).Next?
    ensures var r := Step(s, op);
      && Quiescent(r.state)
      && UserMemory(r.state) == PlainStep(UserMemory(s), op)
      && r.out == PlainOut(UserMemory(s), op)
  {
    hide Inv, Access, FirstFault, EvictVector, KswapdPass, UnmapRange, Loaded, Stored, UserMemory;
    match op
    case Load(va, i, env) =>
      AccessKeeps(s, va, env);
      LoadedKeeps(Access(s, va, env).state, va);
    case Store(va, i, b, env) =>
      AccessKeeps(s, va, env);
      StoredKeeps(Access(s, va, env).state, va, i, b);
    case Touch(va, env) =>
      FirstFaultIsTouch(s, va, env.bits);
    case EvictBatch(n) =>
      VectorIsScalar(s, n);
      EvictTimesKeeps(s, n);
      SameUser(s, EvictTimes(s, n).value);
    case Kswapd =>
      KswapdKeeps(s);
      SameUser(s, KswapdPass(s));
    case Unmap(va, pages) =>
      UnmapIsRemoval(s, va, pages);
  }

  ghost predicate AllWellFormed(ops: seq<Op>) {
    forall i :: 0 <= i < |ops| ==> WellFormed(ops[i])
  }

  ghost function Run(s: State, ops: seq<Op>): (r: Next)
    requires Quiescent(s) && AllWellFormed(ops)
    decreases |ops|
  {
    if ops == [] then Next(s, [])
    else
      var r := Step(s, ops[0]);
      if r.Halt? then r
      else
        StepRefines(s, ops[0]);
        var rest := Run(r.state, ops[1..]);
        if rest.Halt? then rest else Next(rest.state, r.out + rest.out)
  }

  ghost function PlainRun(m: map<nat, Bytes>, ops: seq<Op>): (r: (map<nat, Bytes>, seq<Byte>))
    requires AllWellFormed(ops)
    decreases |ops|
  {
    if ops == [] then (m, [])
    else
      var rest := PlainRun(PlainStep(m, ops[0]), ops[1..]);
      (rest.0, PlainOut(m, ops[0]) + rest.1)
  }

  /** Memory transparency: over any run of loads, stores, first touches, evictions,
      reclaim passes, prefetches and unmappings, what the program reads is what it
      would read from plain memory. */
  lemma {:induction false} RunIsPlain(s: State, ops: seq<Op>)
    requires Quiescent(s) && AllWellFormed(ops) && Run(s, ops).Next?
    ensures var r := Run(s, ops);
      && Quiescent(r.state)
      && UserMemory(r.state) == PlainRun(UserMemory(s), ops).0
      && r.out == PlainRun(UserMemory(s), ops).1
    decreases |ops|
  {
    hide Inv, Step, UserMemory, PlainStep, PlainOut;
    if ops != [] {
      StepRefines(s, ops[0]);
      RunIsPlain(Step(s, ops[0]).state, ops[1..]);
    }
  }

  // ----- plain memory returns the last byte written -----

  ghost predicate InRange(va: nat, pages: nat, x: nat)
    decreases pages
  {
    pages > 0 && (x == va || InRange(va + PAGE_SIZE, pages - 1, x))
  }

  /** The last byte that `ops` stored at `va`, `i` since the page was mapped; zero if
      the page is new since; `was` if nothing happened to it. */
  ghost function LastWrite(ops: seq<Op>, va: nat, i: nat, was: Byte): Byte
    decreases |ops|
  {
    if ops == [] then was
    else
      var (init, op) := (ops[..|ops| - 1], ops[|ops| - 1]);
      if op.Store? && op.va == va && op.i == i then op.b
      else if op.Unmap? && InRange(op.va, op.pages, va) then 0
      else LastWrite(init, va, i, was)
  }

  ghost function ByteAt(m: map<nat, Bytes>, va: nat, i: nat): Byte
    requires i < PAGE_SIZE
  {
    if va in m then m[va][i] else 0
  }

  lemma {:induction false} RemovedByte(m: map<nat, Bytes>, base: nat, pages: nat, va: nat, i: nat)
    requires i < PAGE_SIZE
    ensures ByteAt(RemoveRange(m, base, pages), va, i) == if InRange(base, pages, va) then 0 else ByteAt(m, va, i)
    decreases pages
  {
    if pages > 0 {
      RemovedByte(m - {base}, base + PAGE_SIZE, pages - 1, va, i);
    }
  }

  lemma {:induction false} PlainRunLast(m: map<nat, Bytes>, ops: seq<Op>)
    requires AllWellFormed(ops) && ops != []
    ensures AllWellFormed(ops[..|ops| - 1])
    ensures PlainRun(m, ops).0 == PlainStep(PlainRun(m, ops[..|ops| - 1]).0, ops[|ops| - 1])
    decreases |ops|
  {
    var init := ops[..|ops| - 1];
    if |ops| == 1 {
      assert ops[1..] == [];
    } else {
      assert ops[1..][..|ops| - 2] == init[1..];
      PlainRunLast(PlainStep(m, ops[0]), ops[1..]);
    }
  }

  /** After any operations, a byte of plain memory is the last one written to it. */
  lemma {:induction false} PlainIsLastWrite(m: map<nat, Bytes>, ops: seq<Op>, va: nat, i: nat)
    requires AllWellFormed(ops) && i < PAGE_SIZE
    ensures ByteAt(PlainRun(m, ops).0, va, i) == LastWrite(ops, va, i, ByteAt(m, va, i))
    decreases |ops|
  {
    if ops != [] {
      var (init, op) := (ops[..|ops| - 1], ops[|ops| - 1]);
      PlainRunLast(m, ops);
      PlainIsLastWrite(m, init, va, i);
      if op.Unmap? {
        RemovedByte(PlainRun(m, init).0, op.va, op.pages, va, i);
      }
    }
  }

  /** A load at the end of any run from a fresh machine returns the last byte stored
      at its address since the page was mapped, or zero. */
  lemma LoadReturnsLastWrite(s: State, ops: seq<Op>, va: nat, i: nat, env: Env)
    requires Quiescent(s) && s.index == map[] && AllWellFormed(ops) && Aligned(va) && i < PAGE_SIZE
    requires Run(s, ops).Next? && Quiescent(Run(s, ops).state)
    requires Step(Run(s, ops).state, Load(va, i, env)).Next?
    ensures Step(Run(s, ops).state, Load(va, i, env)).out == [LastWrite(ops, va, i, 0)]
  {
    hide Inv, Step, Run, PlainRun;
    var t := Run(s, ops).state;
    RunIsPlain(s, ops);
    StepRefines(t, Load(va, i, env));
    PlainIsLastWrite(UserMemory(s), ops, va, i);
    assert ByteAt(UserMemory(s), va, i) == 0;
  }

  // ----- capacity and leaks -----

  /** While the tracked pages do not outnumber the slots, no batch, however large,
      stops at "no disk page found". */
  lemma {:induction false} DiskNeverRunsOut(s: State, n: nat)
    requires Quiescent(s) && |s.index| <= Slots(s)
    ensures EvictVector(s, n).Some?
  {
    VectorIsScalar(s, n);
    EvictTimesFindSlots(s, n);
  }

  lemma {:induction false} EvictTimesFindSlots(s: State, n: nat)
    requires Quiescent(s) && |s.index| <= Slots(s)
    ensures EvictTimes(s, n).Some?
    decreases n
  {
    hide Inv, EvictOne;
    if n > 0 {
      EvictOneFindsSlot(s);
      EvictOneKeeps(s);
      EvictTimesFindSlots(EvictOne(s).value, n - 1);
    }
  }

  lemma EvictOneFindsSlot(s: State)
    requires Inv(s) && |s.index| <= Slots(s)
    ensures EvictOne(s).Some?
  {
    if s.lists.eviction != [] {
      EvictionFindsSlot(s);
    }
  }

  /** When nothing is tracked, every frame and every slot is on its free list. */
  lemma NothingLeaks(s: State)
    requires Quiescent(s) && s.index == map[]
    ensures |s.lists.dramFree| == Frames(s) && |s.lists.diskFree| == Slots(s) && s.memAllocated == 0
    ensures s.lists.active == [] && s.lists.inactive == [] && s.lists.eviction == []
    ensures s.lists.diskActive == [] && s.lists.diskReserve == []
  {
    Laws.FramesLaw(s);
    Laws.SlotsLaw(s);
    forall p | p in s.desc ensures s.desc[p].va == 0 { assert Tracked(s, p); }
    assert Laws.Unbacked(s) == {};
    assert Laws.HeldFrames(s) == {};
    forall va: nat ensures va !in s.mem.ram {
      assert va in s.mem.ram ==> Mapped(s, va);
    }
    assert |s.mem.ram| == 0;
    forall q: Queue | q in {Active, Inactive, Eviction, DiskActive, DiskReserve} ensures s.lists.Get(q) == [] {
      EmptyList(s, q);
    }
    assert s.lists.Get(Active) == [] && s.lists.Get(Inactive) == [] && s.lists.Get(Eviction) == [];
    assert s.lists.Get(DiskActive) == [] && s.lists.Get(DiskReserve) == [];
  }

  lemma EmptyList(s: State, q: Queue)
    requires Inv(s) && (forall p :: p in s.desc ==> s.desc[p].va == 0)
    requires q in {Active, Inactive, Eviction, DiskActive, DiskReserve}
    ensures s.lists.Get(q) == []
  {
    forall p: nat ensures p !in s.lists.Get(q) {
      assert p in s.lists.Get(q) ==> p in s.desc && s.desc[p].list == Some(q);
      if p in s.desc {
        UntrackedList(s, p);
      }
    }
    HasElement(s.lists.Get(q));
  }

  lemma HasElement(l: seq<nat>)
    ensures l != [] ==> exists p :: p in l
  {
    if l != [] {
      assert l[0] in l;
    }
  }

  lemma UntrackedList(s: State, p: nat)
    requires Inv(s) && p in s.desc && forall x :: x in s.desc ==> s.desc[x].va == 0
    ensures s.desc[p].list in {None, Some(DramFree), Some(DiskFree)}
  {
    assert RoleOk(s.desc[p]) && Paired(s, p);
    if s.desc[p].reserve.Some? {
      assert RoleOk(s.desc[s.desc[p].reserve.value]);
    }
  }

  /** Unmapping every tracked page gives back every frame and every slot. */
  lemma UnmappingAllFreesAll(s: State, va: nat, pages: nat)
    requires Quiescent(s) && forall x :: x in s.index ==> InRange(va, pages, x)
    ensures var t := UnmapRange(s, va, pages);
      && t.index == map[]
      && |t.lists.dramFree| == Frames(t) && |t.lists.diskFree| == Slots(t) && t.memAllocated == 0
  {
    hide Inv;
    var t := UnmapRange(s, va, pages);
    UnmapIsRemoval(s, va, pages);
    RemovedKeys(UserMemory(s), va, pages);
    assert UserMemory(t).Keys == t.index.Keys && UserMemory(s).Keys == s.index.Keys;
    NothingLeaks(t);
  }

  lemma {:induction false} RemovedKeys(m: map<nat, Bytes>, va: nat, pages: nat)
    ensures RemoveRange(m, va, pages).Keys <= m.Keys
    ensures forall x :: x in RemoveRange(m, va, pages) ==> !InRange(va, pages, x)
    decreases pages
  {
    if pages > 0 {
      RemovedKeys(m - {va}, va + PAGE_SIZE, pages - 1);
    }
  }
}
