/** Runs on a machine of two frames: a read-ahead that spins, and one that evicts the
    page that was just faulted in. */
module TwoFrames {
  import opened Machine
  import opened Fetch
  import opened SwapIn
  import opened Lifetime
  import opened Faults
  import opened Prefetching
  import opened Runs
  import opened Halting
  import opened Reclaim
  import X = Exchange
  import W = Workers
  import E = Evict
  import Laws
  import SC = SecondChance

  // ----- frames are found by evicting -----

  /** The machine is settled, or a page is being read; frames are all taken, no page
      was accessed, and there are slots for all pages. */
  ghost predicate Full(s: State) {
    && Inv(s) && s.dramsize == 2 * PAGE_SIZE && |s.index| <= Slots(s)
    && s.lists.dramFree == [] && s.lists.active == [] && s.mem.accessed == {}
  }

  /** The rest is as it was. */
  ghost predicate Alike(s: State, t: State) {
    t.index == s.index && t.dramsize == s.dramsize && t.disksize == s.disksize
  }

  lemma ExchangedHead(s: State, v: nat, d: nat)
    requires s.lists.eviction != [] && v == s.lists.eviction[0] && X.Chosen(s, v, d) && d in s.desc
    ensures var (t, l) := (X.Exchanged(s, v, d, false), s.lists);
      && Alike(s, t) && t.mem.accessed <= s.mem.accessed
      && t.lists == l.(eviction := l.eviction[1..], diskActive := l.diskActive + [v],
                       diskFree := t.lists.diskFree, diskReserve := t.lists.diskReserve)
      && (!s.desc[v].hasReserve ==> d == l.diskFree[0] && t.lists.diskFree == l.diskFree[1..]
                                    && t.lists.diskReserve == l.diskReserve)
  {
    hide Without;
    WithoutHead(s.lists.eviction);
    if !s.desc[v].hasReserve { WithoutHead(s.lists.diskFree); }
  }

  lemma HeadEvicts(s: State)
    requires Inv(s) && s.lists.eviction != [] && |s.index| <= Slots(s)
    ensures var (r, l) := (EvictSelf(s), s.lists);
      && r.Got? && Alike(s, r.state) && r.state.mem.accessed <= s.mem.accessed
      && r.state.lists == l.(eviction := l.eviction[1..], diskActive := l.diskActive + [l.eviction[0]],
                             diskFree := r.state.lists.diskFree, diskReserve := r.state.lists.diskReserve)
      && (l.diskReserve == [] ==> l.diskFree != [] && r.frame == l.diskFree[0]
                                  && r.state.lists.diskFree == l.diskFree[1..] && r.state.lists.diskReserve == [])
  {
    EvictionFindsSlot(s);
    W.HeadOfEviction(s);
    var v := s.lists.eviction[0];
    var d := W.DiskFor(s, v, s.lists.diskFree).value;
    X.RunExchanges(s, v, d, false);
    VictimResident(s, v);
    if s.lists.diskReserve == [] && s.desc[v].hasReserve { ReserveListed(s, v); }
    hide Inv, X.Exchanged, X.Worker, X.JobFor, E.Run;
    ExchangedHead(s, v, d);
  }

  lemma VictimResident(s: State, v: nat)
    requires Inv(s) && v in s.desc && s.desc[v].list == Some(Eviction)
    ensures s.desc[v].inDram
  {
    assert RoleOk(s.desc[v]);
  }

  lemma ReserveListed(s: State, v: nat)
    requires Inv(s) && v in s.desc && s.desc[v].inDram && s.desc[v].hasReserve
    ensures s.desc[v].reserve.Some? && s.desc[v].reserve.value in s.lists.diskReserve
  {
    assert RoleOk(s.desc[v]) && Paired(s, v);
    var r := s.desc[v].reserve.value;
    assert RoleOk(s.desc[r]) && Linked(s, r);
  }

  /** With one page on the lists, the one that awaits eviction goes at once. */
  lemma NextGoes(s: State)
    requires Full(s) && |s.lists.inactive| <= 1 && s.lists.eviction != []
    ensures FetchFree(s, 12) == EvictSelf(s)
  {}

  lemma {:induction false} OneOfTwo(priority: nat)
    requires priority > 0
    ensures FirstRound(2, priority) == 1
  {
    if priority > 1 {
      SC.ShiftedOut(1, priority - 1);
      OneOfTwo(priority - 1);
    }
  }

  lemma TwoGo(x: SC.Policy)
    requires x.active == [] && x.eviction == [] && |x.inactive| == 2 && x.accessed == {}
    ensures var y := SC.Reclaim(x, SC.SWAP_CLUSTER_COUNT, 1).policy;
      y.active == [] && y.inactive == [] && y.eviction == x.inactive
  {
    var (y, z) := (SC.Inspect(x), SC.Inspect(SC.Inspect(x)));
    assert z.inactive == [] && z.eviction == x.inactive;
    assert SC.ScanFrom(z, 2, 2, 2) == SC.Result(z, 2);
    assert SC.ScanFrom(y, 2, 1, 1) == SC.Result(z, 2);
    assert SC.ShrinkInactive(x, SC.SWAP_CLUSTER_COUNT) == SC.Result(z, 2);
    assert ShiftRight(2, 1) == 1 && ShiftRight(0, 1) == 0;
    SC.OneRound(x, SC.SWAP_CLUSTER_COUNT, 0);
  }

  /** With two inactive pages the last round moves both, and evicts the older. */
  lemma BothMove(s: State)
    requires Full(s) && |s.lists.inactive| == 2 && s.lists.eviction == []
    ensures var t := Reclaimed(s, SC.SWAP_CLUSTER_COUNT, 1);
      && Full(t) && Alike(s, t) && t.lists == s.lists.(inactive := [], eviction := s.lists.inactive)
      && t.lists.eviction != [] && FetchFree(s, 12) == EvictSelf(t)
  {
    LastRound(s);
    hide Inv, FetchFree, Reclaimed;
    BothListed(s);
  }

  lemma BothListed(s: State)
    requires s.lists.active == [] && |s.lists.inactive| == 2 && s.lists.eviction == [] && s.mem.accessed == {}
    ensures var t := Reclaimed(s, SC.SWAP_CLUSTER_COUNT, 1);
      && Alike(s, t) && t.lists == s.lists.(inactive := [], eviction := s.lists.inactive) && t.mem.accessed == {}
  {
    hide SC.Reclaim;
    NoneAccessed(s);
    TwoGo(PolicyOf(s));
  }

  /** The rounds before the last look at nothing. */
  lemma LastRound(s: State)
    requires Full(s) && |s.lists.inactive| == 2 && s.lists.eviction == []
    ensures var t := Reclaimed(s, SC.SWAP_CLUSTER_COUNT, 1);
      Inv(t) && t.lists.eviction != [] && FetchFree(s, 12) == EvictSelf(t)
  {
    hide Inv, Reclaimed, EvictSelf;
    ReclaimKeeps(s, SC.SWAP_CLUSTER_COUNT, 1);
    assert Searching(s);
    IdleRounds(s, 12);
    OneOfTwo(12);
    BothListed(s);
  }

  lemma NoneAccessed(s: State)
    requires s.mem.accessed == {}
    ensures PolicyOf(s).accessed == {}
  {}

  /** A frame is found; `l` are the lists before its page is evicted. */
  ghost predicate Finds(s: State, l: Lists, r: Outcome) {
    && r.Got? && Full(r.state) && Alike(s, r.state) && l.eviction != []
    && r.state.lists == l.(eviction := l.eviction[1..], diskActive := l.diskActive + [l.eviction[0]],
                           diskFree := r.state.lists.diskFree, diskReserve := r.state.lists.diskReserve)
    && (l.diskReserve == [] ==> l.diskFree != [] && r.frame == l.diskFree[0]
                                && r.state.lists.diskFree == l.diskFree[1..] && r.state.lists.diskReserve == [])
  }

  lemma FindsNext(s: State)
    requires Full(s) && |s.lists.inactive| <= 1 && s.lists.eviction != []
    ensures Finds(s, s.lists, FetchFree(s, 12))
  {
    hide Inv, EvictSelf, FetchFree;
    NextGoes(s);
    HeadEvicts(s);
    FetchKeeps(s, 12);
  }

  lemma FindsOlder(s: State)
    requires Full(s) && |s.lists.inactive| == 2 && s.lists.eviction == []
    ensures Finds(s, s.lists.(inactive := [], eviction := s.lists.inactive), FetchFree(s, 12))
  {
    hide Inv, EvictSelf, FetchFree, Reclaimed;
    BothMove(s);
    HeadEvicts(Reclaimed(s, SC.SWAP_CLUSTER_COUNT, 1));
    FetchKeeps(s, 12);
  }

  lemma FindsNothing(s: State)
    requires Full(s) && s.lists.inactive == [] && s.lists.eviction == []
    ensures FetchFree(s, 12) == Stuck
  {}

  // ----- first touches -----

  lemma TouchGets(s: State, va: nat, t: State, f: nat)
    requires Quiescent(s) && Aligned(va) && va !in s.index && FetchFree(s, 12) == Got(t, f)
    ensures f in t.desc
    ensures var r := FirstFault(s, va, QUIET.bits);
      && r.Ok? && Quiescent(r.state) && Step(s, Touch(va, QUIET)) == Next(r.state, [])
      && r.state.lists == t.lists.(inactive := t.lists.inactive + [f]) && r.state.index == t.index[va := f]
      && r.state.mem.accessed <= t.mem.accessed && r.state.dramsize == t.dramsize && r.state.disksize == t.disksize
  {
    hide Inv, FetchFree, MapFresh, ZeroPage;
    FetchKeeps(s, 12);
    PageFaultKeeps(s);
    assert PageFault(s) == Got(Busy(t, f), f);
    MapFreshShape(Busy(t, f), f, va);
    assert va !in t.index && FirstFault(s, va, QUIET.bits).Ok?;
    FirstFaultKeeps(s, va, QUIET.bits);
  }

  lemma MapFreshShape(s: State, f: nat, va: nat)
    requires f in s.desc
    ensures var t := MapFresh(s, f, va, QUIET.bits);
      && t.lists == s.lists.(inactive := s.lists.inactive + [f]) && t.index == s.index[va := f]
      && t.mem.accessed <= s.mem.accessed && t.dramsize == s.dramsize && t.disksize == s.disksize
  {}

  /** Nothing is read and no page has a reserve. */
  ghost predicate Small(s: State, index: map<nat, nat>, inactive: seq<nat>, eviction: seq<nat>, diskActive: seq<nat>,
                        diskFree: seq<nat>) {
    && Quiescent(s) && Full(s) && s.index == index && Slots(s) >= 5
    && s.lists == Lists([], inactive, eviction, [], diskActive, diskFree, [])
  }

  lemma TouchFinds(s: State, va: nat, l: Lists) returns (t: State)
    requires Quiescent(s) && Full(s) && |s.index| < 5 <= Slots(s) && Aligned(va) && va !in s.index
    requires Finds(s, l, FetchFree(s, 12)) && l.diskReserve == []
    ensures Step(s, Touch(va, QUIET)) == Next(t, [])
    ensures Quiescent(t) && Full(t) && t.index == s.index[va := l.diskFree[0]] && Slots(t) >= 5
    ensures t.lists == l.(eviction := l.eviction[1..], diskActive := l.diskActive + [l.eviction[0]],
                          diskFree := l.diskFree[1..], inactive := l.inactive + [l.diskFree[0]])
  {
    hide Inv, FetchFree, FirstFault;
    var r := FetchFree(s, 12);
    TouchGets(s, va, r.state, r.frame);
    t := FirstFault(s, va, QUIET.bits).state;
    assert |s.index[va := r.frame]| == |s.index| + 1 by { assert s.index[va := r.frame].Keys == s.index.Keys + {va}; }
  }

  /** The page that awaits eviction makes room. */
  lemma TouchNext(s: State, index: map<nat, nat>, i: nat, v: nat, act: seq<nat>, d: nat, free: seq<nat>, va: nat)
      returns (t: State)
    requires Small(s, index, [i], [v], act, [d] + free) && |index| < 5 && Aligned(va) && va !in index
    ensures Step(s, Touch(va, QUIET)) == Next(t, []) && Small(t, index[va := d], [i, d], [], act + [v], free)
  {
    hide Inv, FetchFree, Step;
    FindsNext(s);
    t := TouchFinds(s, va, s.lists);
    assert [i] + [d] == [i, d] && ([d] + free)[1..] == free && [v][1..] == [];
  }

  /** Of two inactive pages the older makes room, and the other awaits eviction. */
  lemma TouchOlder(s: State, index: map<nat, nat>, i: nat, v: nat, act: seq<nat>, d: nat, free: seq<nat>, va: nat)
      returns (t: State)
    requires Small(s, index, [i, v], [], act, [d] + free) && |index| < 5 && Aligned(va) && va !in index
    ensures Step(s, Touch(va, QUIET)) == Next(t, []) && Small(t, index[va := d], [d], [v], act + [i], free)
  {
    hide Inv, FetchFree, Step;
    FindsOlder(s);
    t := TouchFinds(s, va, s.lists.(inactive := [], eviction := s.lists.inactive));
    assert [] + [d] == [d] && ([d] + free)[1..] == free && [i, v][1..] == [v];
  }

  ghost predicate Touches(s: State, va: nat, t: State) {
    Quiescent(s) && Aligned(va) && Step(s, Touch(va, QUIET)) == Next(t, []) && Quiescent(t)
  }

  lemma FreeTouched(s: State, va: nat, f: nat, rest: seq<nat>) returns (t: State)
    requires Quiescent(s) && Aligned(va) && va !in s.index && s.lists.dramFree == [f] + rest && s.mem.accessed == {}
    ensures Touches(s, va, t) && SameSizes(s, t) && t.mem.accessed == {} && t.index == s.index[va := f]
    ensures t.lists == s.lists.(dramFree := rest, inactive := s.lists.inactive + [f])
  {
    hide Inv, FirstFault;
    FirstTouchMaps(s, va);
    FirstFaultKeeps(s, va, QUIET.bits);
    FirstFaultSizes(s, va, QUIET.bits);
    t := FirstFault(s, va, QUIET.bits).state;
    WithoutHead(s.lists.dramFree);
  }

  lemma TwoTouched(s: State, a: nat, b: nat) returns (t: State, u: State, f: nat, g: nat, free: seq<nat>)
    requires Quiescent(s) && s.index == map[] && s.dramsize == 2 * PAGE_SIZE && Slots(s) >= 5
    requires Aligned(a) && Aligned(b) && a != b
    ensures Touches(s, a, t) && Touches(t, b, u)
    ensures |free| >= 5 && Small(u, map[a := f, b := g], [f, g], [], [], free)
  {
    hide Inv, Touches;
    NothingLeaks(s);
    NothingAccessed(s);
    f, g, free := s.lists.dramFree[0], s.lists.dramFree[1], s.lists.diskFree;
    assert s.lists.dramFree == [f] + [g] && [g] == [g] + [] && [] + [f] == [f] && [f] + [g] == [f, g];
    t := FreeTouched(s, a, f, [g]);
    TouchesIs(s, a, t);
    u := FreeTouched(t, b, g, []);
    TouchesIs(t, b, u);
    assert u.index.Keys == {a, b} && |u.index| == |u.index.Keys|;
  }

  lemma TouchesIs(s: State, va: nat, t: State)
    requires Touches(s, va, t)
    ensures Quiescent(t)
  {
    hide Inv, Step;
  }

  /** A run goes on where its first operation ends. */
  lemma RunOn(s: State, t: State, op: Op, ops: seq<Op>)
    requires Quiescent(s) && WellFormed(op) && Step(s, op) == Next(t, []) && Quiescent(t) && AllWellFormed(ops)
    ensures AllWellFormed([op] + ops) && Run(s, [op] + ops) == Run(t, ops)
  {
    hide Inv, Step;
    assert ([op] + ops)[1..] == ops;
    if Run(t, ops).Next? { assert [] + Run(t, ops).out == Run(t, ops).out; }
  }

  lemma FiveSteps(s: State, t1: State, t2: State, t3: State, t4: State, t: State, a: Op, b: Op, c: Op, d: Op, e: Op, ops: seq<Op>)
    requires Quiescent(s) && Quiescent(t1) && Quiescent(t2) && Quiescent(t3) && Quiescent(t4) && Quiescent(t)
    requires WellFormed(a) && WellFormed(b) && WellFormed(c) && WellFormed(d) && WellFormed(e) && AllWellFormed(ops)
    requires Step(s, a) == Next(t1, []) && Step(t1, b) == Next(t2, []) && Step(t2, c) == Next(t3, [])
    requires Step(t3, d) == Next(t4, []) && Step(t4, e) == Next(t, [])
    ensures AllWellFormed([a, b, c, d, e] + ops) && Run(s, [a, b, c, d, e] + ops) == Run(t, ops)
  {
    hide Inv, Step, Run;
    RunOn(t4, t, e, ops);
    RunOn(t3, t4, d, [e] + ops);
    RunOn(t2, t3, c, [d] + ([e] + ops));
    RunOn(t1, t2, b, [c] + ([d] + ([e] + ops)));
    RunOn(s, t1, a, [b] + ([c] + ([d] + ([e] + ops))));
    assert [a] + ([b] + ([c] + ([d] + ([e] + ops)))) == [a, b, c, d, e] + ops;
  }

  lemma SmallIs(s: State, index: map<nat, nat>, inactive: seq<nat>, eviction: seq<nat>, diskActive: seq<nat>, diskFree: seq<nat>)
    ensures Small(s, index, inactive, eviction, diskActive, diskFree) ==> Quiescent(s)
  {}

  lemma ThreeTouched(s: State, pages: seq<nat>, f: seq<nat>, free: seq<nat>) returns (t3: State, t4: State, t: State)
    requires |pages| == |f| == 5 && forall i, j :: 0 <= i < j < 5 ==> pages[i] != pages[j]
    requires Aligned(pages[2]) && Aligned(pages[3]) && Aligned(pages[4])
    requires Small(s, map[pages[0] := f[0], pages[1] := f[1]], [f[0], f[1]], [], [], f[2..] + free)
    ensures Touches(s, pages[2], t3) && Touches(t3, pages[3], t4) && Touches(t4, pages[4], t)
    ensures Small(t, map[pages[0] := f[0], pages[1] := f[1], pages[2] := f[2], pages[3] := f[3], pages[4] := f[4]],
                  [f[4]], [f[3]], [f[0], f[1], f[2]], free)
  {
    hide Inv, FetchFree, Step, Full, Run;
    assert f[2..] + free == [f[2]] + (f[3..] + free) && f[3..] + free == [f[3]] + (f[4..] + free) && f[4..] == [f[4]];
    var index := map[pages[0] := f[0], pages[1] := f[1]];
    t3 := TouchOlder(s, index, f[0], f[1], [], f[2], f[3..] + free, pages[2]);
    assert [] + [f[0]] == [f[0]] && [f[0]] + [f[1]] == [f[0], f[1]] && [f[0], f[1]] + [f[2]] == [f[0], f[1], f[2]];
    t4 := TouchNext(t3, index[pages[2] := f[2]], f[2], f[1], [f[0]], f[3], f[4..] + free, pages[3]);
    t := TouchOlder(t4, index[pages[2] := f[2]][pages[3] := f[3]], f[2], f[3], [f[0], f[1]], f[4], free, pages[4]);
  }

  /** Five pages are touched: three are swapped out, one awaits eviction. */
  lemma FiveTouched(s: State, a: nat, b: nat, c: nat, d: nat, e: nat, ops: seq<Op>)
      returns (t: State, f: seq<nat>, free: seq<nat>)
    requires Quiescent(s) && s.index == map[] && s.dramsize == 2 * PAGE_SIZE && Slots(s) >= 5
    requires Aligned(a) && Aligned(b) && Aligned(c) && Aligned(d) && Aligned(e) && AllWellFormed(ops)
    requires b != a && c !in {a, b} && d !in {a, b, c} && e !in {a, b, c, d}
    ensures |f| == 5 && |free| >= 2 && Quiescent(t)
    ensures Small(t, map[a := f[0], b := f[1], c := f[2], d := f[3], e := f[4]], [f[4]], [f[3]], [f[0], f[1], f[2]], free)
    ensures var five := [Touch(a, QUIET), Touch(b, QUIET), Touch(c, QUIET), Touch(d, QUIET), Touch(e, QUIET)];
      AllWellFormed(five + ops) && Run(s, five + ops) == Run(t, ops)
  {
    hide Inv, Small, Step, Run;
    var t1, t2, f0, f1, free0 := TwoTouched(s, a, b);
    SmallIs(t2, map[a := f0, b := f1], [f0, f1], [], [], free0);
    f, free := [f0, f1, free0[0], free0[1], free0[2]], free0[3..];
    assert f[2..] + free == free0;
    var t3, t4;
    t3, t4, t := ThreeTouched(t2, [a, b, c, d, e], f, free);
    FiveSteps(s, t1, t2, t3, t4, t, Touch(a, QUIET), Touch(b, QUIET), Touch(c, QUIET), Touch(d, QUIET), Touch(e, QUIET), ops);
  }

  // ----- the oldest page is faulted in again -----

  lemma StartShape(s: State, p: nat)
    requires p in s.desc
    ensures var t := StartRead(s, p);
      && Alike(s, t) && t.mem == s.mem && t.lists == s.lists.(diskActive := Without(s.lists.diskActive, p))
  {}

  lemma FinishShape(s: State, p: nat, f: nat, bytes: Bytes)
    requires p in s.desc && f in s.desc && p != f
    ensures var t := FinishRead(s, p, f, bytes, QUIET.bits);
      && Alike(s, t) && t.mem.accessed <= s.mem.accessed && t.mem.ram == s.mem.ram[s.desc[p].va := bytes]
      && t.lists == s.lists.(inactive := s.lists.inactive + [p], diskReserve := s.lists.diskReserve + [f])
  {}

  /** One page is being waited for: it leaves `diskActive`, the page that awaits
      eviction leaves memory, and the page arrives. */
  lemma FaultedIn(s: State, p: nat, i: nat, v: nat, act: seq<nat>) returns (u: State)
    requires Quiescent(s) && Full(s) && s.lists.inactive == [i] && s.lists.eviction == [v]
    requires s.lists.diskActive == [p] + act
    ensures SwappedOut(s, p) && MissingFault(s, p, false, QUIET.bits) == Ok(u)
    ensures Quiescent(u) && Full(u) && Alike(s, u)
    ensures u.lists.inactive == [i, p] && u.lists.eviction == [] && u.lists.diskActive == act + [v]
  {
    hide Inv, FetchFree, StartRead, Full, Alike;
    ReadStarts(s, p, act);
    FindsNext(StartRead(s, p));
    u := ReadEnds(s, p, StartRead(s, p).lists);
    Arrived(s, u, p, i, v, act);
  }

  lemma Arrived(s: State, u: State, p: nat, i: nat, v: nat, act: seq<nat>)
    requires s.lists.inactive == [i] && s.lists.eviction == [v]
    requires u.lists.inactive == s.lists.inactive + [p] && u.lists.eviction == s.lists.eviction[1..]
    requires u.lists.diskActive == act + [s.lists.eviction[0]]
    ensures u.lists.inactive == [i, p] && u.lists.eviction == [] && u.lists.diskActive == act + [v]
  {
    assert [i] + [p] == [i, p];
  }

  lemma ReadStarts(s: State, p: nat, act: seq<nat>)
    requires Quiescent(s) && Full(s) && s.lists.diskActive == [p] + act
    ensures SwappedOut(s, p) && Full(StartRead(s, p)) && Alike(s, StartRead(s, p))
    ensures StartRead(s, p).lists == s.lists.(diskActive := act)
  {
    assert p in s.lists.Get(DiskActive);
    hide Inv, StartRead;
    StartReadKeeps(s, p);
    StartShape(s, p);
    WithoutHead(s.lists.diskActive);
  }

  lemma ReadEnds(s: State, p: nat, l: Lists) returns (u: State)
    requires Quiescent(s) && SwappedOut(s, p) && Full(StartRead(s, p)) && Alike(s, StartRead(s, p))
    requires Finds(StartRead(s, p), l, FetchFree(StartRead(s, p), 12))
    ensures MissingFault(s, p, false, QUIET.bits) == Ok(u) && Quiescent(u) && Full(u) && Alike(s, u)
    ensures u.lists.inactive == l.inactive + [p] && u.lists.eviction == l.eviction[1..]
    ensures u.lists.diskActive == l.diskActive + [l.eviction[0]]
  {
    hide Inv, FetchFree, StartRead, FinishRead, Content;
    var t := StartRead(s, p);
    StartReadKeeps(s, p);
    FetchKeeps(t, 12);
    var r := FetchFree(t, 12);
    StartReadVa(s, p);
    LoanSurvives(t, r.state, r.frame, p);
    FinishShape(r.state, p, r.frame, Content(t, p));
    u := MissingFault(s, p, false, QUIET.bits).state;
    MissingFaultKeeps(s, p, false, QUIET.bits);
  }

  /** The next page is on disk and is gathered. */
  lemma GatherNext(s: State, base: nat, n: nat, p: nat, act: seq<nat>)
    requires Inv(s) && n > 0 && base + PAGE_SIZE in s.index && s.index[base + PAGE_SIZE] == p && s.lists.diskActive == [p] + act
    ensures SwappedOut(s, p) && Inv(StartRead(s, p))
    ensures var (t, rest) := (StartRead(s, p), Gather(StartRead(s, p), base + PAGE_SIZE, n - 1));
      && Gather(s, base, n) == Gathered(rest.state, [p] + rest.pages)
      && Alike(s, t) && t.mem == s.mem && t.lists == s.lists.(diskActive := act)
  {
    assert p in s.lists.Get(DiskActive);
    assert RoleOk(s.desc[p]);
    StartReadKeeps(s, p);
    StartShape(s, p);
    WithoutHead(s.lists.diskActive);
  }

  /** The next page is resident, or there is none. */
  lemma GatherEnds(s: State, base: nat, n: nat)
    requires Inv(s) && (base + PAGE_SIZE in s.index ==> s.index[base + PAGE_SIZE] in s.lists.inactive)
    ensures Gather(s, base, n) == Gathered(s, [])
  {
    if base + PAGE_SIZE in s.index {
      var p := s.index[base + PAGE_SIZE];
      assert p in s.lists.Get(Inactive);
      assert RoleOk(s.desc[p]);
    }
  }

  // ----- frames for the pages read ahead -----

  lemma PageFaultFinds(s: State, l: Lists)
    requires Inv(s) && Finds(s, l, FetchFree(s, 12))
    ensures var r := PageFault(s);
      && r.Got? && Full(r.state) && Alike(s, r.state)
      && r.state.lists.inactive == l.inactive && r.state.lists.eviction == l.eviction[1..]
  {
    hide FetchFree;
    PageFaultKeeps(s);
  }

  /** The two resident pages make room, the older first. */
  lemma TwoFrames(s: State) returns (t: State, u: State)
    requires Full(s) && |s.lists.inactive| == 2 && s.lists.eviction == []
    ensures PageFault(s).Got? && PageFault(s).state == t && Inv(t) && PageFault(t).Got? && PageFault(t).state == u
    ensures Full(u) && u.lists.inactive == [] && u.lists.eviction == []
  {
    hide Inv, FetchFree, PageFault;
    FindsOlder(s);
    PageFaultFinds(s, s.lists.(inactive := [], eviction := s.lists.inactive));
    t := PageFault(s).state;
    FindsNext(t);
    PageFaultFinds(t, t.lists);
    u := PageFault(t).state;
  }

  lemma ThirdSpins(s: State)
    requires Full(s) && |s.lists.inactive| == 2 && s.lists.eviction == []
    ensures FetchMany(s, 3) == Short(Stuck)
  {
    hide Inv, PageFault;
    var t, u := TwoFrames(s);
    NoThird(u);
    assert FetchMany(u, 1) == Short(Stuck);
    assert FetchMany(t, 2) == Short(Stuck);
  }

  lemma NoThird(s: State)
    requires Full(s) && s.lists.inactive == [] && s.lists.eviction == []
    ensures PageFault(s) == Stuck
  {
    hide FetchFree;
    FindsNothing(s);
  }

  /** Reads are finished before frames are looked for, and the next pages are read
      ahead. */
  const EAGER: Env := Env(false, Bits(false, false), true, [], [])

  lemma SpinsFrom(s: State, a: nat, f: seq<nat>, free: seq<nat>)
    requires |f| == 5 && Aligned(a)
    requires Small(s, map[a := f[0], a + PAGE_SIZE := f[1], a + 2 * PAGE_SIZE := f[2], a + 3 * PAGE_SIZE := f[3],
                          a + 4 * PAGE_SIZE := f[4]], [f[4]], [f[3]], [f[0], f[1], f[2]], free)
    ensures Handle(s, a, EAGER) == Failed(Stuck)
  {
    hide Inv, FetchMany, MissingFault, StartRead, Full, Gather;
    assert [f[0], f[1], f[2]] == [f[0]] + [f[1], f[2]];
    var u := FaultedIn(s, f[0], f[4], f[3], [f[1], f[2]]);
    assert [f[1], f[2]] + [f[3]] == [f[1]] + [f[2], f[3]];
    GatherNext(u, a, 32, f[1], [f[2], f[3]]);
    var u1 := StartRead(u, f[1]);
    assert [f[2], f[3]] == [f[2]] + [f[3]];
    GatherNext(u1, a + PAGE_SIZE, 31, f[2], [f[3]]);
    var u2 := StartRead(u1, f[2]);
    assert [f[3]] == [f[3]] + [];
    GatherNext(u2, a + 2 * PAGE_SIZE, 30, f[3], []);
    var u3 := StartRead(u2, f[3]);
    GatherEnds(u3, a + 3 * PAGE_SIZE, 29);
    assert Gather(u, a, 32) == Gathered(u3, [f[1], f[2], f[3]]);
    StillFull(u, u3);
    ThirdSpins(u3);
    assert Prefetch(u, a, [], []) == Failed(Stuck);
    HandleReads(s, a, f[0], u);
  }

  lemma StillFull(s: State, t: State)
    requires Full(s) && Inv(t) && Alike(s, t) && t.mem == s.mem && t.lists == s.lists.(diskActive := t.lists.diskActive)
    ensures Full(t)
  {}

  lemma HandleReads(s: State, a: nat, p: nat, u: State)
    requires Quiescent(s) && Aligned(a) && a in s.index && s.index[a] == p && SwappedOut(s, p)
    requires MissingFault(s, p, false, QUIET.bits) == Ok(u) && Quiescent(u)
    ensures Handle(s, a, EAGER) == Prefetch(u, a, [], [])
  {
    hide MissingFault, Prefetch;
    SwappedOutPage(s, a);
    assert RoleOk(s.desc[p]);
  }

  /** A read-ahead can hang: on two frames, five pages in a row are touched and the first
      is read again.  The read-ahead takes the second, third and fourth off their list;
      the pages that were resident make room for two of them, the faulting one
      included; and the search for the third frame has nothing left to evict. */
  lemma ReadAheadSpins(s: State, a: nat)
    requires Quiescent(s) && s.index == map[] && s.dramsize == 2 * PAGE_SIZE && Slots(s) >= 5 && Aligned(a)
    ensures Run(s, [Touch(a, QUIET), Touch(a + PAGE_SIZE, QUIET), Touch(a + 2 * PAGE_SIZE, QUIET),
                    Touch(a + 3 * PAGE_SIZE, QUIET), Touch(a + 4 * PAGE_SIZE, QUIET)] + [Load(a, 0, EAGER)]) == Halt(Stuck)
  {
    hide Inv, Small, Handle, Step, Run;
    var t, f, free := FiveTouched(s, a, a + PAGE_SIZE, a + 2 * PAGE_SIZE, a + 3 * PAGE_SIZE, a + 4 * PAGE_SIZE,
                                  [Load(a, 0, EAGER)]);
    SpinsFrom(t, a, f, free);
    LoadSpins(t, a);
  }

  lemma LoadSpins(s: State, a: nat)
    requires Quiescent(s) && Aligned(a) && Handle(s, a, EAGER) == Failed(Stuck)
    ensures AllWellFormed([Load(a, 0, EAGER)]) && Run(s, [Load(a, 0, EAGER)]) == Halt(Stuck)
  {
    hide Inv, Prefetch, MissingFault, FirstFault;
    if a in s.mem.ram {
      MappedIsTracked(s, a);
      ResidentHere(s, a);
    }
  }

  // ----- the faulting page goes again -----

  lemma TwoRead(s: State) returns (states: seq<State>, frames: seq<nat>)
    requires Full(s) && |s.lists.inactive| == 2 && s.lists.eviction == []
    ensures FetchMany(s, 2) == All(states, frames) && |states| == 3 && Full(states[2])
    ensures states[2].lists.inactive == [] && states[2].lists.eviction == []
  {
    hide Inv, PageFault;
    var t, u := TwoFrames(s);
    states, frames := FetchMany(s, 2).states, FetchMany(s, 2).frames;
  }

  lemma NothingMapped(s: State)
    requires Full(s) && s.lists.inactive == [] && s.lists.eviction == []
    ensures s.mem.ram == map[]
  {
    Laws.MappedCard(s);
    Laws.ResidentCard(s);
    assert |s.mem.ram| == 0;
  }

  lemma FinishOther(s: State, p: nat, f: nat, bytes: Bytes, bits: Bits, va: nat)
    requires Loaned(s, p, f) && s.desc[p].va != va && va !in s.mem.ram
    ensures va !in FinishRead(s, p, f, bytes, bits).mem.ram
    ensures forall q {:trigger FinishRead(s, p, f, bytes, bits).desc[q]} :: q in s.desc ==>
      q in FinishRead(s, p, f, bytes, bits).desc && FinishRead(s, p, f, bytes, bits).desc[q].va == s.desc[q].va
  {}

  /** Only the pages that were read are mapped. */
  lemma {:induction false} FinishAllOther(s: State, ps: seq<nat>, fs: seq<nat>, buffers: seq<Bytes>, bits: seq<Bits>, va: nat)
    requires AllLoaned(s, ps, fs) && |buffers| == |ps| && va !in s.mem.ram
    requires forall p :: p in ps ==> p in s.desc && s.desc[p].va != va
    ensures va !in FinishAll(s, ps, fs, buffers, bits).mem.ram
    decreases |ps|
  {
    hide FinishRead;
    if ps != [] {
      var b := At(bits, 0, Bits(false, false));
      FinishFirst(s, ps, fs, buffers[0], b);
      FinishOther(s, ps[0], fs[0], buffers[0], b, va);
      var t := FinishRead(s, ps[0], fs[0], buffers[0], b);
      forall p | p in ps[1..] ensures p in t.desc && t.desc[p].va != va { assert p in ps; }
      FinishAllOther(t, ps[1..], fs[1..], buffers[1..], if bits == [] then [] else bits[1..], va);
    }
  }

  lemma PrefetchLeaves(s: State, a: nat, g: State, ps: seq<nat>)
    requires Quiescent(s) && Gather(s, a, CORE_PREFETCH_RATE) == Gathered(g, ps) && |ps| == 2
    requires Full(g) && |g.lists.inactive| == 2 && g.lists.eviction == []
    requires forall p :: p in ps ==> p in g.desc && g.desc[p].va != a
    ensures Prefetch(s, a, [], []).Ok? && a !in Prefetch(s, a, [], []).state.mem.ram
  {
    hide Inv, Gather, FetchMany, FinishAll, AllLoaned, Buffers, SameForUser;
    PrefetchReady(s, a);
    var states, frames := TwoRead(g);
    NothingMapped(states[2]);
    assert KeepsLoans(g, states[2]);
    forall p | p in ps ensures p in states[2].desc && states[2].desc[p].va != a {
      assert p in SetOf(ps) && g.desc[p].list == None;
    }
    FinishAllOther(states[2], ps, frames, Buffers(states, ps, []), [], a);
  }

  lemma EvictsFrom(s: State, a: nat, f: seq<nat>, free: seq<nat>)
    requires |f| == 5 && Aligned(a)
    requires Small(s, map[a := f[0], a + PAGE_SIZE := f[1], a + 2 * PAGE_SIZE := f[2], a + 4 * PAGE_SIZE := f[3],
                          a + 5 * PAGE_SIZE := f[4]], [f[4]], [f[3]], [f[0], f[1], f[2]], free)
    ensures Handle(s, a, EAGER).Ok? && a !in Handle(s, a, EAGER).state.mem.ram
  {
    hide Inv, FetchMany, MissingFault, StartRead, Full, Gather, Prefetch;
    assert [f[0], f[1], f[2]] == [f[0]] + [f[1], f[2]];
    var u := FaultedIn(s, f[0], f[4], f[3], [f[1], f[2]]);
    assert [f[1], f[2]] + [f[3]] == [f[1]] + [f[2], f[3]];
    GatherNext(u, a, 32, f[1], [f[2], f[3]]);
    var u1 := StartRead(u, f[1]);
    assert [f[2], f[3]] == [f[2]] + [f[3]];
    GatherNext(u1, a + PAGE_SIZE, 31, f[2], [f[3]]);
    var u2 := StartRead(u1, f[2]);
    GatherEnds(u2, a + 2 * PAGE_SIZE, 30);
    assert Gather(u, a, 32) == Gathered(u2, [f[1], f[2]]);
    StillFull(u, u2);
    AddressOf(u2, a + PAGE_SIZE);
    AddressOf(u2, a + 2 * PAGE_SIZE);
    PrefetchLeaves(u, a, u2, [f[1], f[2]]);
    HandleReads(s, a, f[0], u);
  }

  lemma AddressOf(s: State, va: nat)
    requires Inv(s) && va in s.index
    ensures s.index[va] in s.desc && s.desc[s.index[va]].va == va
  {
    assert Indexed(s, va);
  }

  /** Three pages in a row are touched, and two more after a gap of one. */
  function WithGap(a: nat): seq<Op> {
    [Touch(a, QUIET), Touch(a + PAGE_SIZE, QUIET), Touch(a + 2 * PAGE_SIZE, QUIET),
     Touch(a + 4 * PAGE_SIZE, QUIET), Touch(a + 5 * PAGE_SIZE, QUIET)]
  }

  /** A handler can return with the faulting page evicted again: the read-ahead of the two
      pages after it takes both frames. */
  lemma ReadAheadEvicts(s: State, a: nat) returns (t: State)
    requires Quiescent(s) && s.index == map[] && s.dramsize == 2 * PAGE_SIZE && Slots(s) >= 5 && Aligned(a)
    ensures AllWellFormed(WithGap(a)) && Run(s, WithGap(a)) == Next(t, [])
    ensures Quiescent(t) && Handle(t, a, EAGER).Ok? && a !in Handle(t, a, EAGER).state.mem.ram
  {
    hide Inv, Small, Handle, Step;
    var f, free;
    t, f, free := FiveTouched(s, a, a + PAGE_SIZE, a + 2 * PAGE_SIZE, a + 4 * PAGE_SIZE, a + 5 * PAGE_SIZE, []);
    EvictsFrom(t, a, f, free);
    assert WithGap(a) + [] == WithGap(a);
  }
}
