/** What the operations of the machine do to its lists, page by page. */
module Effects {
  import opened Machine
  import opened Fetch
  import opened SwapIn
  import opened Lifetime
  import opened Faults
  import opened Workers
  import opened Reclaim
  import opened Runs
  import CR = ColdReclaim
  import SC = SecondChance
  import X = Exchange

  // ----- reclaim on the machine's own lists -----

  /** The `k` oldest inactive pages await eviction, and the `d` oldest active ones have
      become the youngest inactive ones. */
  predicate Reclaims(l: Lists, m: Lists, k: nat, d: nat) {
    && k <= |l.inactive| && d <= |l.active|
    && m == l.(eviction := l.eviction + l.inactive[..k],
               inactive := l.inactive[k..] + l.active[..d],
               active := l.active[d..])
  }

  lemma Quiet(s: State)
    requires s.mem.accessed == {}
    ensures PolicyOf(s).accessed == {}
  {}

  lemma AdoptShifted(s: State, x: SC.Policy, k: nat, d: nat)
    requires CR.Shifted(PolicyOf(s), x, k, d)
    ensures Reclaims(s.lists, Adopt(s, x).lists, k, d)
  {}

  /** With no accessed bit set, kswapd goes through the inactive list by clusters of 32,
      until it has looked at one page in 4096, or has got what the lists hold above 85
      percent of DRAM; it demotes as many clusters, up to one active page in 4096. */
  lemma KswapdMoves(s: State) returns (k: nat, d: nat)
    requires Quiescent(s) && s.mem.accessed == {} && |s.lists.active| + |s.lists.inactive| > 85 * s.dramsize / 409600
    ensures var (c, a) := (|s.lists.inactive| / 4096, |s.lists.active| / 4096);
      var nr := |s.lists.active| + |s.lists.inactive| - 85 * s.dramsize / 409600;
      && (32 * k >= c || 32 * k >= nr) && (k > 0 ==> 32 * (k - 1) < c && 32 * (k - 1) < nr)
      && d <= k && (32 * d >= a || d == k) && (d > 0 ==> 32 * (d - 1) < a)
    ensures Step(s, Kswapd).Next? && Reclaims(s.lists, Step(s, Kswapd).state.lists, 32 * k, 32 * d)
  {
    hide Inv, SC.KswapdPass, CR.Shifted, Adopt;
    Quiet(s);
    k, d := CR.KswapdExact(PolicyOf(s), 85 * s.dramsize / 409600);
    AdoptShifted(s, SC.KswapdPass(PolicyOf(s), 85 * s.dramsize / 409600).policy, 32 * k, 32 * d);
  }

  /** Below the watermark it does nothing, whatever was accessed. */
  lemma KswapdRests(s: State)
    requires Quiescent(s) && |s.lists.active| + |s.lists.inactive| <= 85 * s.dramsize / 409600
    ensures Step(s, Kswapd) == Next(s, [])
  {
    hide Inv, Adopt;
    AdoptSelf(s);
  }

  // ----- the search for a frame -----

  /** The page at the head of the eviction list has gone to disk. */
  predicate Evicts(l: Lists, m: Lists) {
    && l.eviction != []
    && m == l.(eviction := l.eviction[1..], diskActive := l.diskActive + [l.eviction[0]],
               diskFree := m.diskFree, diskReserve := m.diskReserve)
  }

  lemma ExchangeLists(s: State, v: nat, d: nat, release: bool)
    requires s.lists.eviction != [] && v == s.lists.eviction[0] && v in s.desc && d in s.desc
    ensures var m := X.Exchanged(s, v, d, release).lists;
      m == s.lists.(eviction := s.lists.eviction[1..], diskActive := s.lists.diskActive + [v],
                    diskFree := m.diskFree, diskReserve := m.diskReserve,
                    dramFree := if release then s.lists.dramFree + [d] else s.lists.dramFree)
  {
    WithoutHead(s.lists.eviction);
    hide Without;
  }

  lemma SelfEvicts(s: State)
    requires Inv(s) && s.lists.eviction != [] && EvictSelf(s).Got?
    ensures Evicts(s.lists, EvictSelf(s).state.lists)
  {
    hide Inv, X.Exchanged;
    HeadOfEviction(s);
    var v := s.lists.eviction[0];
    var d := DiskFor(s, v, s.lists.diskFree).value;
    X.RunExchanges(s, v, d, false);
    ExchangeLists(s, v, d, false);
  }

  /** A free frame is taken, the oldest first, and nothing else moves. */
  lemma FetchTakesFree(s: State)
    requires Inv(s) && s.lists.dramFree != []
    ensures var r := FetchFree(s, 12);
      && r.Got? && r.frame == s.lists.dramFree[0]
      && r.state.lists == s.lists.(dramFree := s.lists.dramFree[1..]) && r.state.mem == s.mem
  {
    hide Inv;
    WithoutHead(s.lists.dramFree);
  }

  /** While the lists hold at most half of DRAM, the oldest page that awaits eviction is
      evicted, and nothing is reclaimed. */
  lemma FetchEvictsOnly(s: State)
    requires Inv(s) && s.lists.dramFree == [] && s.lists.eviction != []
    requires |s.lists.active| + |s.lists.inactive| <= s.dramsize / 8192 && FetchFree(s, 12).Got?
    ensures Evicts(s.lists, FetchFree(s, 12).state.lists)
  {
    hide Inv, EvictSelf;
    SelfEvicts(s);
  }

  lemma ReclaimMoves(s: State, priority: nat)
    requires s.mem.accessed == {} && ShiftRight(|s.lists.inactive|, priority) > 0
    ensures var (i, a) := (|s.lists.inactive|, |s.lists.active|);
      Reclaims(s.lists, Reclaimed(s, 32, priority).lists, if i < 32 then i else 32,
               if ShiftRight(a, priority) == 0 then 0 else if a < 32 then a else 32)
  {
    hide SC.Reclaim, CR.Shifted, Adopt;
    Quiet(s);
    CR.ColdCluster(PolicyOf(s), priority);
    var (i, a) := (|s.lists.inactive|, |s.lists.active|);
    AdoptShifted(s, SC.Reclaim(PolicyOf(s), 32, priority).policy, if i < 32 then i else 32,
                 if ShiftRight(a, priority) == 0 then 0 else if a < 32 then a else 32);
  }

  /** While they hold more, and at least 4096 pages are inactive, a cluster is reclaimed
      first, even if a page awaits eviction already; then the oldest that awaits it goes. */
  lemma FetchReclaimsFirst(s: State) returns (m: Lists)
    requires Inv(s) && s.lists.dramFree == [] && s.mem.accessed == {} && |s.lists.inactive| >= 4096
    requires |s.lists.active| + |s.lists.inactive| > s.dramsize / 8192 && FetchFree(s, 12).Got?
    ensures Reclaims(s.lists, m, 32, if |s.lists.active| < 4096 then 0 else 32)
    ensures Evicts(m, FetchFree(s, 12).state.lists)
  {
    hide Inv, EvictSelf, Reclaimed;
    CR.ShiftTwelve(|s.lists.inactive|);
    CR.ShiftTwelve(|s.lists.active|);
    ReclaimMoves(s, 12);
    ReclaimKeeps(s, 32, 12);
    m := Reclaimed(s, 32, 12).lists;
    SelfEvicts(Reclaimed(s, 32, 12));
  }

  /** With fewer inactive pages, and nothing awaiting eviction, the first round whose
      share of them is positive reclaims a cluster, and the oldest of it goes. */
  lemma FetchReclaimsLater(s: State) returns (p: nat, m: Lists)
    requires Inv(s) && s.lists.dramFree == [] && s.lists.eviction == [] && s.mem.accessed == {}
    requires |s.lists.active| + |s.lists.inactive| > s.dramsize / 8192
    requires |s.lists.inactive| >= 2 && FetchFree(s, 12).Got?
    ensures 0 < p <= 12 && ShiftRight(|s.lists.inactive|, p) > 0
    ensures p < 12 ==> ShiftRight(|s.lists.inactive|, p + 1) == 0
    ensures var (i, a) := (|s.lists.inactive|, |s.lists.active|);
      Reclaims(s.lists, m, if i < 32 then i else 32, if ShiftRight(a, p) == 0 then 0 else if a < 32 then a else 32)
    ensures Evicts(m, FetchFree(s, 12).state.lists)
  {
    hide Inv, EvictSelf, Reclaimed;
    p := FirstRound(|s.lists.inactive|, 12);
    IdleRounds(s, 12);
    FirstRoundLooks(|s.lists.inactive|, 12);
    NoRoundBefore(|s.lists.inactive|, 12);
    ReclaimMoves(s, p);
    ReclaimKeeps(s, 32, p);
    m := Reclaimed(s, 32, p).lists;
    SelfEvicts(Reclaimed(s, 32, p));
  }

  lemma {:induction false} NoRoundBefore(n: nat, priority: nat)
    ensures var p := FirstRound(n, priority); p < priority ==> ShiftRight(n, p + 1) == 0
    decreases priority
  {
    if priority > 0 && ShiftRight(n, priority) == 0 && FirstRound(n, priority) < priority - 1 {
      NoRoundBefore(n, priority - 1);
    }
  }

  // ----- faults -----

  /** A first touch fetches a frame and puts it at the young end of the inactive list. */
  lemma TouchFetches(s: State, va: nat, env: Env)
    requires Quiescent(s) && Aligned(va) && va !in s.index && Step(s, Touch(va, env)).Next?
    ensures var (r, t) := (FetchFree(s, 12), Step(s, Touch(va, env)).state);
      && r.Got? && t.index == s.index[va := r.frame]
      && t.lists == r.state.lists.(inactive := r.state.lists.inactive + [r.frame])
  {
    hide Inv, FetchFree;
    FetchKeeps(s, 12);
  }

  /** A major fault does so with the page that was on disk, and its slot is kept for it. */
  lemma MajorFaultFetches(s: State, p: nat, late: bool, bits: Bits)
    requires Quiescent(s) && SwappedOut(s, p) && MissingFault(s, p, late, bits).Ok?
    ensures Inv(StartRead(s, p))
    ensures StartRead(s, p).lists == s.lists.(diskActive := Without(s.lists.diskActive, p))
    ensures var (r, t) := (FetchFree(StartRead(s, p), 12), MissingFault(s, p, late, bits).state);
      && r.Got? && t.index == s.index && p in t.desc && t.desc[p].reserve == Some(r.frame)
      && t.lists == r.state.lists.(inactive := r.state.lists.inactive + [p],
                                   diskReserve := r.state.lists.diskReserve + [r.frame])
  {
    hide Inv, FetchFree;
    StartReadKeeps(s, p);
    FetchKeeps(StartRead(s, p), 12);
    var r := FetchFree(StartRead(s, p), 12);
    LoanSurvives(StartRead(s, p), r.state, r.frame, p);
  }

  /** A load or a store leaves the accessed bit set, a store the dirty bit too, and no
      other page is marked. */
  lemma AccessMarks(s: State, op: Op)
    requires Quiescent(s) && WellFormed(op) && (op.Load? || op.Store?) && op.va in s.mem.ram
    ensures Step(s, op).Next?
    ensures var t := Step(s, op).state;
      && t.mem.accessed == s.mem.accessed + {op.va} && t.lists == s.lists
      && t.mem.dirty == s.mem.dirty + if op.Store? then {op.va} else {}
  {
    hide Inv, Handle;
  }

  lemma GivenBack(s: State, f: nat)
    requires f in s.desc
    ensures var t := PutBack(Busy(s, f), f);
      t.index == s.index && t.mem == s.mem && t.lists == s.lists.(dramFree := s.lists.dramFree + [f])
  {}

  /** A first touch of a page that another thread was first to touch gives its frame back. */
  lemma TouchReturns(s: State, va: nat, env: Env)
    requires Quiescent(s) && Aligned(va) && va in s.index && Step(s, Touch(va, env)).Next?
    ensures var (r, t) := (FetchFree(s, 12), Step(s, Touch(va, env)).state);
      && r.Got? && t.index == s.index && t.mem == r.state.mem
      && t.lists == r.state.lists.(dramFree := r.state.lists.dramFree + [r.frame])
  {
    hide Inv, FetchFree, Busy, PutBack, SameForUser, KeepsLoans;
    FetchKeeps(s, 12);
    var r := FetchFree(s, 12);
    SameKeys(s, r.state);
    GivenBack(r.state, r.frame);
    BusyIndex(r.state, r.frame);
  }

  lemma BusyIndex(s: State, f: nat)
    requires f in s.desc
    ensures Busy(s, f).index == s.index && f in Busy(s, f).desc
  {}

  /** What is left of the lists when the page `p` of list `q` is freed, and its reserve
      with it: freed frames and slots are the youngest entries of their free lists. */
  predicate Frees(l: Lists, m: Lists, q: Queue, p: nat, reserve: Option<nat>) {
    var k := l.Put(q, Without(l.Get(q), p));
    match (q, reserve)
    case (DiskActive, _) => m == k.(diskFree := l.diskFree + [p])
    case (_, None) => m == k.(dramFree := l.dramFree + [p])
    case (_, Some(r)) =>
      m == k.(dramFree := l.dramFree + [p], diskFree := l.diskFree + [r], diskReserve := Without(l.diskReserve, r))
  }

  lemma DropFrees(s: State, va: nat)
    requires Quiescent(s) && va in s.index && Droppable(s, va)
    ensures var (p, t) := (s.index[va], Drop(s, va));
      && Frees(s.lists, t.lists, s.desc[p].list.value, p, s.desc[p].reserve)
      && (s.desc[p].list == Some(DiskActive) <==> va !in s.mem.ram)
      && t.mem.ram == s.mem.ram - {va} && t.mem.disk == s.mem.disk
  {
    hide Without, ListsOk, PlacesOk;
    ResidentHere(s, va);
    DropFacts(s, va);
    assert RoleOk(s.desc[s.index[va]]);
  }

  /** Unmapping a page takes it off its list and frees what it had; the disk is not
      written. */
  lemma UnmapFrees(s: State, va: nat)
    requires Quiescent(s) && Aligned(va) && va in s.index
    ensures Step(s, Unmap(va, 1)).Next? && Droppable(s, va)
    ensures var (p, t) := (s.index[va], Step(s, Unmap(va, 1)).state);
      && Frees(s.lists, t.lists, s.desc[p].list.value, p, s.desc[p].reserve)
      && (s.desc[p].list == Some(DiskActive) <==> va !in s.mem.ram)
      && t.index == s.index - {va} && t.mem.ram == s.mem.ram - {va} && t.mem.disk == s.mem.disk
  {
    hide Inv, Drop, Frees;
    DropOne(s, va);
    DropFrees(s, va);
    assert UnmapRange(s, va, 1) == UnmapRange(Drop(s, va), va + PAGE_SIZE, 0);
  }

  // ----- the eviction worker -----

  ghost function AddressesOf(s: State, ps: seq<nat>): set<nat> {
    set p | p in ps && p in s.desc :: s.desc[p].va
  }

  /** The `k` oldest pages that await eviction are on disk, unmapped, and as many frames
      more are free. */
  ghost predicate WorksOff(s: State, t: State, k: nat) {
    && k <= |s.lists.eviction|
    && t.lists.eviction == s.lists.eviction[k..]
    && t.lists.diskActive == s.lists.diskActive + s.lists.eviction[..k]
    && t.lists.active == s.lists.active && t.lists.inactive == s.lists.inactive
    && s.lists.dramFree <= t.lists.dramFree && |t.lists.dramFree| == |s.lists.dramFree| + k
    && t.mem.ram.Keys == s.mem.ram.Keys - AddressesOf(s, s.lists.eviction[..k])
  }

  lemma OneWorksOff(s: State, v: nat, d: nat)
    requires Inv(s) && s.lists.eviction != [] && v == s.lists.eviction[0] && X.Chosen(s, v, d) && d in s.desc
    ensures var t := X.Exchanged(s, v, d, true);
      WorksOff(s, t, 1) && t.desc.Keys == s.desc.Keys && forall p :: p in s.desc ==> t.desc[p].va == s.desc[p].va
  {
    X.ChosenFacts(s, v, d);
    ExchangeLists(s, v, d, true);
    hide Inv, Without;
    var t := X.Exchanged(s, v, d, true);
    assert s.lists.eviction[..1] == [v];
    assert AddressesOf(s, [v]) == {s.desc[v].va};
  }

  /** The victim takes the slot kept for it, or else the first free one; it is written
      unless it is clean and had its slot. */
  ghost predicate WritesBack(s: State, t: State, v: nat)
    requires v in s.desc && v in t.desc
  {
    var (d, l, m, o) := (s.desc[v], s.lists, t.lists, t.desc[v].offset);
    && (if d.reserve.Some? then
          && d.reserve.value in s.desc && o == s.desc[d.reserve.value].offset
          && m.diskFree == l.diskFree && m.diskReserve == Without(l.diskReserve, d.reserve.value)
        else
          && l.diskFree != [] && l.diskFree[0] in s.desc && o == s.desc[l.diskFree[0]].offset
          && m.diskFree == l.diskFree[1..] && m.diskReserve == l.diskReserve)
    && d.va in s.mem.ram
    && t.mem.disk == if d.reserve.Some? && d.va !in s.mem.dirty then s.mem.disk else s.mem.disk[o := s.mem.ram[d.va]]
  }

  lemma ExchangeWrites(s: State, v: nat, d: nat, release: bool)
    requires Inv(s) && X.Chosen(s, v, d) && d in s.desc
    ensures var t := X.Exchanged(s, v, d, release); v in t.desc && WritesBack(s, t, v)
  {
    X.ChosenFacts(s, v, d);
    hide Inv;
    if s.desc[v].reserve.None? { WithoutHead(s.lists.diskFree); }
  }

  /** So does a victim of the search for a frame, and one of the worker. */
  lemma VictimWritesBack(s: State)
    requires Inv(s) && s.lists.eviction != []
    ensures var v := s.lists.eviction[0];
      && v in s.desc
      && (EvictSelf(s).Got? ==> v in EvictSelf(s).state.desc && WritesBack(s, EvictSelf(s).state, v))
      && (EvictOne(s).Some? ==> v in EvictOne(s).value.desc && WritesBack(s, EvictOne(s).value, v))
  {
    hide Inv, X.Exchanged, WritesBack;
    HeadOfEviction(s);
    var v := s.lists.eviction[0];
    if EvictSelf(s).Got? {
      var d := DiskFor(s, v, s.lists.diskFree).value;
      X.RunExchanges(s, v, d, false);
      ExchangeWrites(s, v, d, false);
    }
    if EvictOne(s).Some? {
      var d := DiskFor(s, v, s.lists.diskFree).value;
      X.RunExchanges(s, v, d, true);
      ExchangeWrites(s, v, d, true);
    }
  }

  lemma MoreWorksOff(s: State, t: State, u: State, k: nat)
    requires WorksOff(s, t, 1) && WorksOff(t, u, k)
    requires t.desc.Keys == s.desc.Keys && forall p :: p in s.desc ==> t.desc[p].va == s.desc[p].va
    ensures WorksOff(s, u, k + 1)
  {
    var e := s.lists.eviction;
    assert e[1..][..k] == e[1..k + 1] && e[..1] + e[1..k + 1] == e[..k + 1] && e[1..][k..] == e[k + 1..];
    AddressesMore(s, t, e[..1], e[1..k + 1]);
    hide AddressesOf;
  }

  lemma AddressesMore(s: State, t: State, a: seq<nat>, b: seq<nat>)
    requires t.desc.Keys == s.desc.Keys && forall p :: p in s.desc ==> t.desc[p].va == s.desc[p].va
    ensures AddressesOf(s, a) + AddressesOf(t, b) == AddressesOf(s, a + b)
  {
    forall x ensures x in AddressesOf(s, a + b) <==> x in AddressesOf(s, a) || x in AddressesOf(t, b) {
      if p :| p in b && p in s.desc && s.desc[p].va == x { assert p in a + b; }
      if p :| p in a && p in s.desc && s.desc[p].va == x { assert p in a + b; }
    }
  }

  lemma {:induction false} TimesWorkOff(s: State, n: nat)
    requires Inv(s) && EvictTimes(s, n).Some?
    ensures WorksOff(s, EvictTimes(s, n).value, if n < |s.lists.eviction| then n else |s.lists.eviction|)
    decreases n
  {
    hide Inv, EvictOne, WorksOff, X.Exchanged;
    if n == 0 || s.lists.eviction == [] {
      NothingToEvict(s, n);
      WorksOffNone(s);
    } else {
      var v, d := FirstEviction(s);
      var t := EvictOne(s).value;
      OneWorksOff(s, v, d);
      WorksOffRest(s, t);
      TimesWorkOff(t, n - 1);
      MoreWorksOff(s, t, EvictTimes(t, n - 1).value, if n - 1 < |t.lists.eviction| then n - 1 else |t.lists.eviction|);
    }
  }

  lemma WorksOffNone(s: State)
    ensures WorksOff(s, s, 0)
  {
    assert s.lists.diskActive + s.lists.eviction[..0] == s.lists.diskActive;
    assert AddressesOf(s, []) == {};
    assert s.lists.eviction[..0] == [];
  }

  lemma WorksOffRest(s: State, t: State)
    requires WorksOff(s, t, 1)
    ensures t.lists.eviction == s.lists.eviction[1..]
  {}

  /** A pass of the vector worker over `n` pages evicts the `n` oldest of those that await
      eviction, or all of them, and frees as many frames. */
  lemma BatchWorksOff(s: State, n: nat)
    requires Quiescent(s) && Step(s, EvictBatch(n)).Next?
    ensures WorksOff(s, Step(s, EvictBatch(n)).state, if n < |s.lists.eviction| then n else |s.lists.eviction|)
  {
    hide Inv, EvictVector, EvictTimes, WorksOff;
    VectorIsScalar(s, n);
    TimesWorkOff(s, n);
  }
}
