/** Which pages a read-ahead takes, and what it leaves mapped. */
module Lookahead {
  import opened Machine
  import opened Fetch
  import opened SwapIn
  import opened Lifetime
  import opened Faults
  import opened Prefetching
  import opened Runs
  import Effects
  import Laws
  import SC = SecondChance
  import X = Exchange
  import W = Workers

  /** The page at `va` is tracked and not mapped. */
  predicate Away(s: State, va: nat) {
    va in s.index && va !in s.mem.ram
  }

  predicate PageAfter(base: nat, va: nat) {
    va > base && (va - base) % 4096 == 0
  }

  /** The addresses of the `k` pages after `base`. */
  function Ahead(base: nat, k: nat): set<nat> {
    set va: nat | base < va <= base + 4096 * k && PageAfter(base, va)
  }

  /** `k` is the largest number up to 32 such that the `k` pages after `base` are away. */
  ghost predicate TakesUpTo(s: State, base: nat, k: nat) {
    && k <= 32
    && (forall va: nat :: base < va <= base + 4096 * k && PageAfter(base, va) ==> Away(s, va))
    && (k < 32 ==> !Away(s, base + 4096 * (k + 1)))
  }

  lemma AheadFirst(base: nat, k: nat)
    ensures Ahead(base, 0) == {}
    ensures k > 0 ==> Ahead(base, k) == {base + 4096} + Ahead(base + 4096, k - 1)
  {
    if k > 0 {
      forall va: nat ensures va in Ahead(base, k) <==> va in {base + 4096} + Ahead(base + 4096, k - 1) {
        assert va - base == va - (base + 4096) + 4096;
      }
    }
  }

  // ----- the pages that are taken -----

  /** No page after `base` is being read. */
  ghost predicate CalmAfter(s: State, base: nat) {
    forall va :: va in s.index && va > base ==> s.index[va] in s.desc && s.desc[s.index[va]].list.Some?
  }

  lemma SettledIsCalm(s: State, base: nat)
    requires Quiescent(s)
    ensures CalmAfter(s, base)
  {
    forall va | va in s.index ensures s.index[va] in s.desc { assert Indexed(s, va); }
  }

  lemma AwayIsSwapped(s: State, va: nat)
    requires Inv(s) && va in s.index && s.index[va] in s.desc && s.desc[s.index[va]].list.Some?
    ensures var d := s.desc[s.index[va]];
      d.va == va && (Away(s, va) <==> !d.migrating && d.swappedOut)
  {
    assert Indexed(s, va) && RoleOk(s.desc[s.index[va]]) && Backed(s, s.index[va]);
    if va in s.mem.ram { assert Mapped(s, va); }
  }

  /** The page number `i` of `ps`, from 0, is the one away at the page `i + 1` after `base`. */
  predicate Taken(s: State, base: nat, ps: seq<nat>, i: nat)
    requires i < |ps|
  {
    Away(s, base + 4096 * (i + 1)) && ps[i] == s.index[base + 4096 * (i + 1)]
  }

  /** The pages after `base` in order, up to `n`, for as long as they are away. */
  ghost predicate Gathers(s: State, base: nat, n: nat, g: Gathered) {
    && |g.pages| <= n
    && (forall i: nat {:trigger Taken(s, base, g.pages, i)} :: i < |g.pages| ==> Taken(s, base, g.pages, i))
    && (|g.pages| < n ==> !Away(s, base + 4096 * (|g.pages| + 1)))
    && g.state.index == s.index && g.state.mem == s.mem
    && g.state.lists == s.lists.(diskActive := g.state.lists.diskActive)
  }

  lemma StartIs(s: State, p: nat)
    requires SwappedOut(s, p)
    ensures var t := StartRead(s, p);
      && t.index == s.index && t.mem == s.mem && t.lists == s.lists.(diskActive := t.lists.diskActive)
      && t.desc.Keys == s.desc.Keys && forall x :: x in s.desc && x != p ==> t.desc[x] == s.desc[x]
  {}

  lemma StartIsCalm(s: State, base: nat, va: nat)
    requires Inv(s) && CalmAfter(s, base) && va == base + 4096 && va in s.index && SwappedOut(s, s.index[va])
    ensures CalmAfter(StartRead(s, s.index[va]), va)
  {
    var p := s.index[va];
    StartIs(s, p);
    hide StartRead;
    forall v | v in s.index && v > va ensures s.index[v] in s.desc && s.index[v] != p {
      assert Indexed(s, v) && Indexed(s, va);
    }
  }

  lemma CalmAt(s: State, base: nat, va: nat)
    requires CalmAfter(s, base) && va in s.index && va > base
    ensures s.index[va] in s.desc && s.desc[s.index[va]].list.Some?
  {}

  lemma {:induction false} GatherTakes(s: State, base: nat, n: nat)
    requires Inv(s) && CalmAfter(s, base)
    ensures Gathers(s, base, n, Gather(s, base, n))
    decreases n
  {
    hide Inv, StartRead, CalmAfter, Gathers;
    var va := base + 4096;
    if n != 0 && va in s.index {
      CalmAt(s, base, va);
      AwayIsSwapped(s, va);
      var p := s.index[va];
      if Away(s, va) {
        SwappedOutPage(s, va);
        StartReadKeeps(s, p);
        StartIs(s, p);
        StartIsCalm(s, base, va);
        GatherTakes(StartRead(s, p), va, n - 1);
        GathersMore(s, StartRead(s, p), base, n, Gather(StartRead(s, p), va, n - 1));
      } else {
        GathersNone(s, base, n);
      }
    } else {
      GathersNone(s, base, n);
    }
  }

  lemma GathersNone(s: State, base: nat, n: nat)
    requires n > 0 ==> !Away(s, base + 4096)
    ensures Gathers(s, base, n, Gathered(s, []))
  {}

  lemma GathersMore(s: State, t: State, base: nat, n: nat, g: Gathered)
    requires n > 0 && Away(s, base + 4096) && Gathers(t, base + 4096, n - 1, g)
    requires t.index == s.index && t.mem == s.mem && t.lists == s.lists.(diskActive := t.lists.diskActive)
    ensures Gathers(s, base, n, Gathered(g.state, [s.index[base + 4096]] + g.pages))
  {
    var ps := [s.index[base + 4096]] + g.pages;
    forall i: nat | i < |ps| ensures Taken(s, base, ps, i) {
      if i > 0 {
        assert Taken(t, base + 4096, g.pages, i - 1) && base + 4096 + 4096 * (i - 1 + 1) == base + 4096 * (i + 1);
      }
    }
    var next := base + 4096 * (|ps| + 1);
    assert base + 4096 + 4096 * (|g.pages| + 1) == next;
    assert Away(t, next) <==> Away(s, next);
  }

  lemma GatheredAway(s: State, base: nat, g: Gathered)
    requires Gathers(s, base, 32, g)
    ensures TakesUpTo(s, base, |g.pages|)
  {
    var k := |g.pages|;
    forall va: nat | base < va <= base + 4096 * k && PageAfter(base, va) ensures Away(s, va) {
      var i := (va - base) / 4096 - 1;
      assert Taken(s, base, g.pages, i) && va == base + 4096 * (i + 1);
    }
  }

  // ----- the frames that are found -----

  lemma EvictSelfShrinks(s: State)
    requires Inv(s) && s.lists.eviction != [] && EvictSelf(s).Got?
    ensures EvictSelf(s).state.mem.ram.Keys <= s.mem.ram.Keys
  {
    hide Inv;
    W.HeadOfEviction(s);
    var v := s.lists.eviction[0];
    var d := W.DiskFor(s, v, s.lists.diskFree).value;
    X.RunExchanges(s, v, d, false);
  }

  lemma ReclaimedMaps(s: State, nr: nat, priority: nat)
    ensures Reclaimed(s, nr, priority).mem.ram == s.mem.ram
  {
    hide SC.Reclaim;
  }

  /** The search for a frame maps nothing. */
  lemma {:induction false} FetchShrinks(s: State, priority: nat)
    requires Inv(s) && FetchFree(s, priority).Got?
    ensures FetchFree(s, priority).state.mem.ram.Keys <= s.mem.ram.Keys
    decreases priority
  {
    hide Inv, EvictSelf, Reclaimed;
    if s.lists.dramFree == [] {
      if Plenty(s) {
        ReclaimKeeps(s, SC.SWAP_CLUSTER_COUNT, priority);
        ReclaimedMaps(s, SC.SWAP_CLUSTER_COUNT, priority);
        var t := Reclaimed(s, SC.SWAP_CLUSTER_COUNT, priority);
        if t.lists.eviction != [] {
          EvictSelfShrinks(t);
        } else {
          FetchShrinks(t, priority - 1);
        }
      } else {
        EvictSelfShrinks(s);
      }
    }
  }

  lemma FaultShrinks(s: State)
    requires Inv(s) && PageFault(s).Got?
    ensures PageFault(s).state.mem.ram.Keys <= s.mem.ram.Keys
  {
    hide Inv, FetchFree;
    FetchKeeps(s, 12);
    FetchShrinks(s, 12);
  }

  lemma {:induction false} ManyShrink(s: State, n: nat)
    requires Inv(s) && FetchMany(s, n).All?
    ensures FetchMany(s, n).states[n].mem.ram.Keys <= s.mem.ram.Keys
    decreases n
  {
    hide Inv, PageFault;
    if n > 0 {
      FaultShrinks(s);
      PageFaultKeeps(s);
      ManyShrink(PageFault(s).state, n - 1);
    }
  }

  lemma FaultTakesFree(s: State)
    requires Inv(s) && s.lists.dramFree != []
    ensures var r := PageFault(s);
      && r.Got? && r.frame == s.lists.dramFree[0] && r.state.mem == s.mem
      && r.state.lists == s.lists.(dramFree := s.lists.dramFree[1..])
  {
    hide Inv, FetchFree;
    Effects.FetchTakesFree(s);
    FetchKeeps(s, 12);
  }

  /** With as many free frames as asked for, the oldest of them are taken, and nothing
      else moves. */
  lemma {:induction false} ManyFree(s: State, n: nat)
    requires Inv(s) && |s.lists.dramFree| >= n
    ensures var r := FetchMany(s, n);
      && r.All? && r.frames == s.lists.dramFree[..n]
      && r.states[n].mem == s.mem && r.states[n].lists == s.lists.(dramFree := s.lists.dramFree[n..])
    decreases n
  {
    hide Inv, PageFault;
    if n > 0 {
      FaultTakesFree(s);
      PageFaultKeeps(s);
      ManyFree(PageFault(s).state, n - 1);
      var free := s.lists.dramFree;
      assert free[1..][n - 1..] == free[n..] && [free[0]] + free[1..][..n - 1] == free[..n];
    }
  }

  // ----- the pages that are mapped -----

  /** The page number `i` of `ps` belongs at the page `i + 1` after `base`. */
  predicate Homed(s: State, base: nat, ps: seq<nat>, i: nat)
    requires i < |ps|
  {
    ps[i] in s.desc && s.desc[ps[i]].va == base + 4096 * (i + 1)
  }

  ghost predicate AllHomed(s: State, base: nat, ps: seq<nat>) {
    forall i: nat {:trigger Homed(s, base, ps, i)} :: i < |ps| ==> Homed(s, base, ps, i)
  }

  lemma OneMaps(s: State, base: nat, ps: seq<nat>, fs: seq<nat>, bytes: Bytes, bits: Bits)
    requires AllLoaned(s, ps, fs) && ps != [] && AllHomed(s, base, ps) && Loaned(s, ps[0], fs[0])
    ensures var t := FinishRead(s, ps[0], fs[0], bytes, bits);
      && t.mem.ram.Keys == s.mem.ram.Keys + {base + 4096}
      && t.lists == s.lists.(inactive := s.lists.inactive + [ps[0]], diskReserve := s.lists.diskReserve + [fs[0]])
      && AllHomed(t, base + 4096, ps[1..])
  {
    assert Homed(s, base, ps, 0);
    var t := FinishRead(s, ps[0], fs[0], bytes, bits);
    var (next, rest) := (base + 4096, ps[1..]);
    forall i: nat | i < |rest| ensures Homed(t, next, rest, i) {
      assert Homed(s, base, ps, i + 1) && Loaned(s, ps[i + 1], fs[i + 1]);
    }
  }

  lemma AsMany(s: State, ps: seq<nat>, fs: seq<nat>)
    requires AllLoaned(s, ps, fs)
    ensures |fs| == |ps|
  {}

  /** The `ps` are mapped at the pages after `base`, as the youngest inactive pages, and
      keep the slots `fs` they came from. */
  ghost predicate Maps(s: State, t: State, base: nat, ps: seq<nat>, fs: seq<nat>) {
    && t.mem.ram.Keys == s.mem.ram.Keys + Ahead(base, |ps|)
    && t.lists == s.lists.(inactive := s.lists.inactive + ps, diskReserve := s.lists.diskReserve + fs)
  }

  lemma MapsNone(s: State, base: nat, ps: seq<nat>, fs: seq<nat>)
    requires ps == fs == []
    ensures Maps(s, s, base, ps, fs)
  {
    assert s.lists.inactive + ps == s.lists.inactive && s.lists.diskReserve + fs == s.lists.diskReserve;
  }

  lemma MapsMore(s: State, t: State, u: State, base: nat, ps: seq<nat>, fs: seq<nat>)
    requires |ps| == |fs| > 0 && Maps(t, u, base + 4096, ps[1..], fs[1..])
    requires t.mem.ram.Keys == s.mem.ram.Keys + {base + 4096}
    requires t.lists == s.lists.(inactive := s.lists.inactive + [ps[0]], diskReserve := s.lists.diskReserve + [fs[0]])
    ensures Maps(s, u, base, ps, fs)
  {
    AheadFirst(base, |ps|);
    hide Ahead;
    assert [ps[0]] + ps[1..] == ps && [fs[0]] + fs[1..] == fs;
  }

  lemma {:induction false} FinishAllMaps(s: State, base: nat, ps: seq<nat>, fs: seq<nat>, buffers: seq<Bytes>,
                                         bits: seq<Bits>)
    requires AllLoaned(s, ps, fs) && |buffers| == |ps| && AllHomed(s, base, ps)
    ensures Maps(s, FinishAll(s, ps, fs, buffers, bits), base, ps, fs)
    decreases |ps|
  {
    hide AllHomed, AllLoaned, FinishRead, Maps;
    AsMany(s, ps, fs);
    if ps == [] {
      MapsNone(s, base, ps, fs);
    } else {
      var b := At(bits, 0, Bits(false, false));
      FinishFirst(s, ps, fs, buffers[0], b);
      OneMaps(s, base, ps, fs, buffers[0], b);
      var t := FinishRead(s, ps[0], fs[0], buffers[0], b);
      var bits' := if bits == [] then [] else bits[1..];
      FinishAllMaps(t, base + 4096, ps[1..], fs[1..], buffers[1..], bits');
      MapsMore(s, t, FinishAll(t, ps[1..], fs[1..], buffers[1..], bits'), base, ps, fs);
    }
  }

  // ----- core_try_prefetch -----

  lemma HomedWhenIndexed(s: State, u: State, base: nat, g: Gathered)
    requires Inv(u) && u.index == s.index && Gathers(s, base, 32, g)
    ensures AllHomed(u, base, g.pages)
  {
    forall i: nat | i < |g.pages| ensures Homed(u, base, g.pages, i) {
      assert Taken(s, base, g.pages, i) && Indexed(u, base + 4096 * (i + 1));
    }
  }

  lemma FreeWhenFits(s: State, k: nat)
    requires Quiescent(s) && |s.mem.ram| + k <= Frames(s)
    ensures |s.lists.dramFree| >= k
  {
    Laws.FramesLaw(s);
    assert Laws.HeldFrames(s) == {};
  }

  lemma SteadyEnds(s: State, r: Many, loan: set<nat>)
    requires Steady(s, r, loan)
    ensures |r.states| == |r.frames| + 1
    ensures var u := r.states[|r.frames|]; Inv(u) && u.index == s.index
  {
    hide Inv;
    assert SameForUser(s, r.states[|r.frames|]);
  }

  lemma BatchFails(s: State, base: nat, whens: seq<nat>, bits: seq<Bits>)
    requires Quiescent(s) && FetchMany(Gather(s, base, 32).state, |Gather(s, base, 32).pages|).Short?
    ensures Prefetch(s, base, whens, bits).Failed?
  {}

  /** Once its frames are found, the batch is mapped. */
  lemma BatchMaps(s: State, base: nat, whens: seq<nat>, bits: seq<Bits>)
    requires Quiescent(s) && Gathers(s, base, 32, Gather(s, base, 32))
    requires FetchMany(Gather(s, base, 32).state, |Gather(s, base, 32).pages|).All?
    ensures var g := Gather(s, base, 32);
      var r := FetchMany(g.state, |g.pages|);
      && Prefetch(s, base, whens, bits).Ok?
      && Maps(r.states[|g.pages|], Prefetch(s, base, whens, bits).state, base, g.pages, r.frames)
  {
    hide Inv, Gather, FetchMany, FinishAll, Buffers, Content, Gathers, Steady, AllLoaned, Maps;
    PrefetchReady(s, base);
    var g := Gather(s, base, 32);
    var r := FetchMany(g.state, |g.pages|);
    SteadyEnds(g.state, r, SetOf(g.pages));
    var u := r.states[|g.pages|];
    GathersIndex(s, base, g);
    HomedWhenIndexed(s, u, base, g);
    FinishAllMaps(u, base, g.pages, r.frames, Buffers(r.states, g.pages, whens), bits);
  }

  lemma GathersIndex(s: State, base: nat, g: Gathered)
    requires Gathers(s, base, 32, g)
    ensures g.state.index == s.index
  {}

  /** A read-ahead takes, in order, the pages after `base` that are on disk, up to 32 and
      up to the first that is not; when it is over, each of them is mapped, and no other
      page is that was not before. */
  lemma PrefetchTakes(s: State, base: nat, whens: seq<nat>, bits: seq<Bits>) returns (ps: seq<nat>)
    requires Quiescent(s)
    ensures TakesUpTo(s, base, |ps|)
    ensures forall i: nat {:trigger Taken(s, base, ps, i)} :: i < |ps| ==> Taken(s, base, ps, i)
    ensures var r := Prefetch(s, base, whens, bits);
      r.Ok? ==> Ahead(base, |ps|) <= r.state.mem.ram.Keys <= s.mem.ram.Keys + Ahead(base, |ps|)
    ensures |s.mem.ram| + |ps| <= Frames(s) ==>
      var (r, l) := (Prefetch(s, base, whens, bits), s.lists);
      && r.Ok? && r.state.mem.ram.Keys == s.mem.ram.Keys + Ahead(base, |ps|)
      && |l.dramFree| >= |ps|
      && r.state.lists == l.(dramFree := l.dramFree[|ps|..], inactive := l.inactive + ps,
                             diskReserve := l.diskReserve + l.dramFree[..|ps|],
                             diskActive := r.state.lists.diskActive)
  {
    hide Inv, Gather, FetchMany, Prefetch, TakesUpTo, Ahead;
    SettledIsCalm(s, base);
    GatherTakes(s, base, 32);
    var g := Gather(s, base, 32);
    ps := g.pages;
    GatheredAway(s, base, g);
    if |s.mem.ram| + |ps| <= Frames(s) {
      FreeWhenFits(s, |ps|);
      ManyFree(g.state, |ps|);
    }
    if FetchMany(g.state, |ps|).All? {
      ManyShrink(g.state, |ps|);
      BatchMaps(s, base, whens, bits);
    } else {
      BatchFails(s, base, whens, bits);
    }
  }

  // ----- the fault handler -----

  /** A major fault maps its page and no other; it evicts nothing while a frame is free. */
  lemma MissingMaps(s: State, p: nat, late: bool, bits: Bits)
    requires Quiescent(s) && SwappedOut(s, p)
    ensures var r := MissingFault(s, p, late, bits);
      && (r.Ok? ==> r.state.mem.ram.Keys <= s.mem.ram.Keys + {s.desc[p].va})
      && (s.lists.dramFree != [] ==> r.Ok? && r.state.mem.ram.Keys == s.mem.ram.Keys + {s.desc[p].va})
  {
    hide Inv, FetchFree, Content, SameForUser;
    StartReadKeeps(s, p);
    var s1 := StartRead(s, p);
    if s1.lists.dramFree != [] {
      Effects.FetchTakesFree(s1);
    }
    if FetchFree(s1, 12).Got? {
      FetchShrinks(s1, 12);
      FetchKeeps(s1, 12);
      LoanSurvives(s1, FetchFree(s1, 12).state, FetchFree(s1, 12).frame, p);
    }
  }

  lemma StaysAway(s: State, m: State, va: nat, k: nat, k': nat)
    requires TakesUpTo(s, va, k) && TakesUpTo(m, va, k')
    requires m.index == s.index && m.mem.ram.Keys <= s.mem.ram.Keys + {va}
    ensures k <= k'
    ensures s.mem.ram.Keys <= m.mem.ram.Keys ==> k == k'
    ensures Ahead(va, k) <= Ahead(va, k') <= Ahead(va, 32)
  {
    var (a, b) := (va + 4096 * (k + 1), va + 4096 * (k' + 1));
    assert PageAfter(va, a) && PageAfter(va, b);
    assert Away(s, b) ==> Away(m, b);
    assert Away(m, a) && s.mem.ram.Keys <= m.mem.ram.Keys ==> Away(s, a);
  }

  /** Where the handler stands when the page is mapped and the read-ahead begins. */
  lemma MajorFault(s: State, va: nat, env: Env)
    requires Quiescent(s) && Aligned(va) && Away(s, va)
    ensures SwappedOut(s, s.index[va])
    ensures var r := MissingFault(s, s.index[va], env.late, env.bits);
      && (r.Ok? ==>
            && Quiescent(r.state) && r.state.index == s.index && Frames(r.state) == Frames(s)
            && r.state.mem.ram.Keys <= s.mem.ram.Keys + {va}
            && Handle(s, va, env) ==
                 if env.prefetch then Prefetch(r.state, va, env.whens, env.prefetchBits) else r)
      && (r.Failed? ==> Handle(s, va, env).Failed?)
      && (|s.mem.ram| < Frames(s) ==> r.Ok? && r.state.mem.ram.Keys == s.mem.ram.Keys + {va})
  {
    hide Inv, MissingFault, Prefetch, SameForUser;
    ResidentHere(s, va);
    SwappedOutHere(s, va);
    var p := s.index[va];
    MissingMaps(s, p, env.late, env.bits);
    if |s.mem.ram| < Frames(s) { FreeWhenFits(s, 1); }
    if MissingFault(s, p, env.late, env.bits).Ok? {
      MissingFaultKeeps(s, p, env.late, env.bits);
      SameUser(s, MissingFault(s, p, env.late, env.bits).state);
      SameSize(s, MissingFault(s, p, env.late, env.bits).state);
    }
  }

  /** A fault at a page on disk, with read-ahead, maps it and the pages on disk after it,
      up to 32; with frames free for all of them, exactly these are mapped in addition,
      and without read-ahead the page alone. */
  lemma HandleMaps(s: State, va: nat, env: Env, k: nat)
    requires Quiescent(s) && Aligned(va) && Away(s, va) && TakesUpTo(s, va, k)
    ensures var r := Handle(s, va, env);
      r.Ok? && env.prefetch ==> Ahead(va, k) <= r.state.mem.ram.Keys <= s.mem.ram.Keys + {va} + Ahead(va, 32)
    ensures var n := if env.prefetch then k else 0;
      |s.mem.ram| + 1 + n <= Frames(s) ==>
        && Handle(s, va, env).Ok?
        && Handle(s, va, env).state.mem.ram.Keys == s.mem.ram.Keys + {va} + Ahead(va, n)
  {
    hide Inv, MissingFault, Prefetch, Handle, TakesUpTo, Ahead;
    MajorFault(s, va, env);
    AheadFirst(va, 0);
    var r := MissingFault(s, s.index[va], env.late, env.bits);
    if r.Ok? && env.prefetch {
      var ps := PrefetchTakes(r.state, va, env.whens, env.prefetchBits);
      StaysAway(s, r.state, va, k, |ps|);
    }
  }

  lemma SameSize(s: State, t: State)
    requires SameForUser(s, t)
    ensures Frames(t) == Frames(s)
  {}
}
