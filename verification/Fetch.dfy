/** Getting a free frame: from the free list, by reclaiming with rising urgency,
    or by evicting one page on the spot. */
module Fetch {
  import opened Machine
  import opened Evict
  import opened Exchange
  import opened Workers
  import opened Reclaim
  import Laws
  import SC = SecondChance

  /** How `fetch_free_asynch` ends: with a frame, at one of its two failing
      asserts, or never, when nothing is left that a round could change. */
  datatype Outcome = Got(state: State, frame: nat) | NoDiskPage | OutOfMemory | Stuck

  ghost function TakeFree(s: State): (r: Outcome)
    requires Inv(s) && s.lists.dramFree != []
  {
    FreeHead(s);
    Got(Detach(s, DramFree, s.lists.dramFree[0]), s.lists.dramFree[0])
  }

  lemma FreeHead(s: State)
    requires Inv(s) && s.lists.dramFree != []
    ensures s.lists.dramFree[0] in s.desc && s.desc[s.lists.dramFree[0]].list == Some(DramFree)
  {
    assert s.lists.dramFree[0] in s.lists.Get(DramFree);
  }

  /** The first page on the eviction list is evicted and its frame kept. */
  ghost function EvictSelf(s: State): (r: Outcome)
    requires Inv(s) && s.lists.eviction != []
  {
    HeadOfEviction(s);
    var v := s.lists.eviction[0];
    var d := DiskFor(s, v, s.lists.diskFree);
    if d == None then NoDiskPage
    else
      RunExchanges(s, v, d.value, false);
      Got(Run(Worker(false), s, JobFor(s, v, d.value)), d.value)
  }

  ghost function Reclaimed(s: State, nr: nat, priority: nat): (t: State) {
    Adopt(s, SC.Reclaim(PolicyOf(s), nr, priority).policy)
  }

  lemma ReclaimKeeps(s: State, nr: nat, priority: nat)
    requires Inv(s) && nr > 0
    ensures Inv(Reclaimed(s, nr, priority)) && Invisible(s, Reclaimed(s, nr, priority))
  {
    var x := SC.Reclaim(PolicyOf(s), nr, priority).policy;
    SC.ReclaimIsRearranging(PolicyOf(s), nr, priority);
    assert Rearranged(s, x);
    AdoptKeeps(s, x);
  }

  /** More than half of DRAM is on the active and inactive lists. */
  predicate Plenty(s: State) {
    |s.lists.active| + |s.lists.inactive| > s.dramsize / (PAGE_SIZE * 2)
  }

  ghost function FetchFree(s: State, priority: nat): (r: Outcome)
    requires Inv(s)
    decreases priority
  {
    if priority == 0 then OutOfMemory
    else if s.lists.dramFree != [] then TakeFree(s)
    else if Plenty(s) then
      ReclaimKeeps(s, SC.SWAP_CLUSTER_COUNT, priority);
      var t := Reclaimed(s, SC.SWAP_CLUSTER_COUNT, priority);
      if t.lists.eviction != [] then EvictSelf(t) else FetchFree(t, priority - 1)
    else if s.lists.eviction != [] then EvictSelf(s)
    else Stuck
  }

  // ----- what a fetched frame is -----

  /** `p` is handed out: a free frame on no list, which was on a list before. */
  ghost predicate Handed(s: State, t: State, p: nat) {
    && p in s.desc && s.desc[p].list.Some?
    && p in t.desc && t.desc[p].list == None && FreeFrame(t.desc[p]) && !t.desc[p].present
  }

  /** Only `p` became listless; whatever was lent out before still is, unchanged. */
  ghost predicate LendsOnly(s: State, t: State, p: nat) {
    forall q :: q in t.desc && q != p && t.desc[q].list == None ==> q in s.desc && s.desc[q].list == None
  }

  /** What every way of getting a frame does. */
  ghost predicate Served(s: State, t: State, p: nat) {
    Inv(t) && Invisible(s, t) && Handed(s, t, p) && LendsOnly(s, t, p)
  }

  lemma TakeFreeSamePages(s: State)
    requires Inv(s) && s.lists.dramFree != []
    ensures var r := TakeFree(s);
      SamePages(s, r.state) && Invisible(s, r.state) && Handed(s, r.state, r.frame) && LendsOnly(s, r.state, r.frame)
  {
    FreeHead(s);
    assert RoleOk(s.desc[s.lists.dramFree[0]]);
    SamePagesUser(s, TakeFree(s).state);
  }

  lemma TakeFreeRoles(s: State)
    requires Inv(s) && s.lists.dramFree != []
    ensures RolesOk(TakeFree(s).state)
  {
    FreeHead(s);
    var t := TakeFree(s).state;
    forall x | x in t.desc ensures RoleOk(t.desc[x]) { assert RoleOk(s.desc[x]); }
  }

  lemma TakeFreeKeeps(s: State)
    requires Inv(s) && s.lists.dramFree != []
    ensures Served(s, TakeFree(s).state, TakeFree(s).frame)
  {
    FreeHead(s);
    TakeFreeSamePages(s);
    TakeFreeRoles(s);
    DetachKeepsLists(s, DramFree, s.lists.dramFree[0]);
    hide SamePages, Invisible, Handed, LendsOnly;
    var t := TakeFree(s).state;
    SamePagesPlaces(s, t);
    SamePagesPairs(s, t);
    SamePagesIndex(s, t);
    SamePagesMemory(s, t);
  }

  lemma ExchangeHands(s: State, v: nat, d: nat)
    requires Inv(s) && Chosen(s, v, d) && d in s.desc
    ensures Handed(s, Exchanged(s, v, d, false), d) && LendsOnly(s, Exchanged(s, v, d, false), d)
  {
    ChosenFacts(s, v, d);
  }

  lemma EvictSelfKeeps(s: State)
    requires Inv(s) && s.lists.eviction != [] && EvictSelf(s).Got?
    ensures Served(s, EvictSelf(s).state, EvictSelf(s).frame)
  {
    hide Inv, Exchanged, Handed, LendsOnly, Run, Chosen;
    HeadOfEviction(s);
    var v := s.lists.eviction[0];
    var d := DiskFor(s, v, s.lists.diskFree).value;
    RunExchanges(s, v, d, false);
    ExchangeKeeps(s, v, d, false);
    ExchangeHands(s, v, d);
  }

  lemma ServedAfter(s: State, t: State, u: State, p: nat)
    requires Invisible(s, t) && Served(t, u, p)
    requires forall q :: q in t.desc ==> q in s.desc && (t.desc[q].list == None ==> s.desc[q].list == None)
    ensures Served(s, u, p)
  {
    hide Inv;
    InvisibleTrans(s, t, u);
  }

  lemma ReclaimLendsNothing(s: State, priority: nat)
    ensures var t := Reclaimed(s, SC.SWAP_CLUSTER_COUNT, priority);
      forall q :: q in t.desc ==> q in s.desc && (t.desc[q].list == None ==> s.desc[q].list == None)
  {}

  /** A frame that is handed out is free and was on a list; nothing the user or
      another holder can see has changed. */
  lemma {:induction false} FetchKeeps(s: State, priority: nat)
    requires Inv(s) && FetchFree(s, priority).Got?
    ensures Served(s, FetchFree(s, priority).state, FetchFree(s, priority).frame)
    decreases priority
  {
    hide Inv, Served, Invisible, EvictSelf, TakeFree, Reclaimed;
    if s.lists.dramFree != [] {
      TakeFreeKeeps(s);
    } else if Plenty(s) {
      ReclaimKeeps(s, SC.SWAP_CLUSTER_COUNT, priority);
      ReclaimLendsNothing(s, priority);
      var t := Reclaimed(s, SC.SWAP_CLUSTER_COUNT, priority);
      if t.lists.eviction != [] {
        EvictSelfKeeps(t);
      } else {
        FetchKeeps(t, priority - 1);
      }
      ServedAfter(s, t, FetchFree(s, priority).state, FetchFree(s, priority).frame);
    } else {
      EvictSelfKeeps(s);
    }
  }

  // ----- when it fails -----

  /** With no more tracked pages than slots, the disk never runs out. */
  lemma EvictionFindsSlot(s: State)
    requires Inv(s) && |s.index| <= Slots(s) && s.lists.eviction != []
    ensures EvictSelf(s).Got? && EvictOne(s).Some?
  {
    HeadOfEviction(s);
    var v := s.lists.eviction[0];
    assert RoleOk(s.desc[v]);
    if !s.desc[v].hasReserve {
      Laws.SlotForVictim(s, v);
    }
  }

  lemma {:induction false} FetchFindsSlot(s: State, priority: nat)
    requires Inv(s) && |s.index| <= Slots(s)
    ensures FetchFree(s, priority) != NoDiskPage
    decreases priority
  {
    hide Inv, EvictSelf, EvictOne, TakeFree, Reclaimed;
    if priority > 0 && s.lists.dramFree == [] {
      if Plenty(s) {
        ReclaimKeeps(s, SC.SWAP_CLUSTER_COUNT, priority);
        var t := Reclaimed(s, SC.SWAP_CLUSTER_COUNT, priority);
        if t.lists.eviction != [] {
          EvictionFindsSlot(t);
        } else {
          FetchFindsSlot(t, priority - 1);
        }
      } else if s.lists.eviction != [] {
        EvictionFindsSlot(s);
      }
    } else if priority > 0 {
      TakeFreeGot(s);
    }
  }

  lemma TakeFreeGot(s: State)
    requires Inv(s) && s.lists.dramFree != []
    ensures TakeFree(s).Got?
  {}

  lemma ReclaimedLists(s: State, priority: nat)
    requires s.lists.eviction == []
    ensures var (t, r) := (Reclaimed(s, SC.SWAP_CLUSTER_COUNT, priority),
                           SC.Reclaim(PolicyOf(s), SC.SWAP_CLUSTER_COUNT, priority));
      && t.lists.dramFree == s.lists.dramFree && t.dramsize == s.dramsize
      && |t.lists.eviction| == r.count
      && |t.lists.active| + |t.lists.inactive| + |t.lists.eviction| == |s.lists.active| + |s.lists.inactive|
      && t.mem.accessed <= s.mem.accessed
  {
    hide SC.Reclaim;
    var (x, r) := (PolicyOf(s), SC.Reclaim(PolicyOf(s), SC.SWAP_CLUSTER_COUNT, priority));
    SC.ReclaimBound(x, SC.SWAP_CLUSTER_COUNT, priority);
    assert |SC.Pages(x)| == |x.active| + |x.inactive| + |x.eviction|;
    assert |SC.Pages(r.policy)| == |r.policy.active| + |r.policy.inactive| + |r.policy.eviction|;
  }

  /** The search for a frame hangs exactly when nothing is free, nothing awaits
      eviction, and too little is on the lists to start a reclaim. */
  lemma {:induction false} StuckIff(s: State, priority: nat)
    requires Inv(s) && priority > 0
    ensures FetchFree(s, priority) == Stuck <==>
      && s.lists.dramFree == [] && s.lists.eviction == []
      && |s.lists.active| + |s.lists.inactive| <= s.dramsize / 8192
    decreases priority
  {
    hide Inv, Reclaimed;
    if s.lists.dramFree == [] && Plenty(s) {
      ReclaimKeeps(s, SC.SWAP_CLUSTER_COUNT, priority);
      var t := Reclaimed(s, SC.SWAP_CLUSTER_COUNT, priority);
      if t.lists.eviction == [] && priority > 1 {
        ReclaimedGrows(s, priority);
        ReclaimedLists(s, priority);
        StuckIff(t, priority - 1);
      }
    }
  }

  lemma ReclaimedGrows(s: State, priority: nat)
    ensures s.lists.eviction <= Reclaimed(s, SC.SWAP_CLUSTER_COUNT, priority).lists.eviction
  {
    hide SC.Reclaim;
    SC.ReclaimBound(PolicyOf(s), SC.SWAP_CLUSTER_COUNT, priority);
  }

  // ----- when memory runs out -----

  /** The search comes to its reclaim, with nothing in sight but the two lists. */
  ghost predicate Searching(s: State) {
    && Inv(s) && s.lists.dramFree == [] && s.lists.eviction == []
    && |s.lists.active| + |s.lists.inactive| > s.dramsize / 8192
  }

  /** The priority of the first round that looks at an inactive page, of `n`. */
  function FirstRound(n: nat, priority: nat): (p: nat)
    ensures p <= priority
  {
    if priority == 0 || ShiftRight(n, priority) > 0 then priority else FirstRound(n, priority - 1)
  }

  /** Fewer than two inactive pages, or only hot ones and no later round to take what
      replaces them, if anything does. */
  ghost predicate Spent(s: State, priority: nat) {
    var (n, p) := (|s.lists.inactive|, FirstRound(|s.lists.inactive|, priority));
    || n < 2
    || (AllHotPages(s) && (p == 1 || ShiftRight(|s.lists.active|, p) == 0))
  }

  /** One scan has tries for all inactive pages, or meets one with a clear bit. */
  ghost predicate InReach(s: State) {
    || |s.lists.inactive| < 100 * SC.SWAP_CLUSTER_COUNT
    || exists i :: 0 <= i < 100 * SC.SWAP_CLUSTER_COUNT && i < |s.lists.inactive| && Unaccessed(s, s.lists.inactive[i])
  }

  ghost predicate Unaccessed(s: State, p: nat) {
    p in s.desc && s.desc[p].va !in s.mem.accessed
  }

  lemma IdleRound(s: State, priority: nat)
    requires Searching(s) && priority > 0 && ShiftRight(|s.lists.inactive|, priority) == 0
    ensures FetchFree(s, priority) == FetchFree(s, priority - 1)
  {
    SC.ReclaimIdle(PolicyOf(s), SC.SWAP_CLUSTER_COUNT, priority);
    AdoptSelf(s);
    hide Inv, SC.Reclaim, Adopt, PolicyOf;
    assert Reclaimed(s, SC.SWAP_CLUSTER_COUNT, priority) == s;
  }

  /** Rounds that look at nothing only count down. */
  lemma {:induction false} IdleRounds(s: State, priority: nat)
    requires Searching(s)
    ensures FetchFree(s, priority) == FetchFree(s, FirstRound(|s.lists.inactive|, priority))
  {
    hide Searching, FetchFree;
    if priority > 0 && ShiftRight(|s.lists.inactive|, priority) == 0 {
      IdleRound(s, priority);
      IdleRounds(s, priority - 1);
    }
  }

  lemma {:induction false} FirstRoundLooks(n: nat, priority: nat)
    requires priority > 0
    ensures var p := FirstRound(n, priority);
      && (p == 0 <==> n < 2)
      && (n >= 2 ==> ShiftRight(n, p) > 0)
      && (n >= 2 && p < priority ==> ShiftRight(n, p) == 1)
  {
    assert ShiftRight(n, 1) == n / 2;
    if n < 2 { SC.ShiftedOut(n, priority); }
    if ShiftRight(n, priority) == 0 && priority > 1 {
      FirstRoundLooks(n, priority - 1);
      ShiftHalf(n, priority - 1);
    }
  }

  lemma NotAtOnce(n: nat)
    requires n < 4096
    ensures FirstRound(n, 12) < 12
  {
    ShiftFour(n, 8);
    ShiftFour(n, 4);
    ShiftFour(n, 0);
  }

  lemma ShiftFour(n: nat, k: nat)
    ensures ShiftRight(n, k + 4) == ShiftRight(n, k) / 16
  {
    ShiftHalf(n, k);
    ShiftHalf(n, k + 1);
    ShiftHalf(n, k + 2);
    ShiftHalf(n, k + 3);
  }

  lemma {:induction false} ShiftHalf(n: nat, k: nat)
    ensures ShiftRight(n, k + 1) == ShiftRight(n, k) / 2
  {
    if k > 0 { ShiftHalf(n / 2, k - 1); }
  }

  lemma PolicyHot(s: State)
    requires Inv(s)
    ensures NoDup(s.lists.inactive) && NoDup(PolicyOf(s).inactive)
    ensures forall p :: p in s.lists.inactive ==> (SC.IsHot(PolicyOf(s), p) <==> HotPage(s, p))
    ensures forall p :: p in s.desc ==> (p in PolicyOf(s).accessed <==> !Unaccessed(s, p))
    ensures forall p :: p in s.lists.inactive ==> p in s.desc
  {
    InactiveScan(s);
  }

  ghost predicate AllHotPages(s: State) {
    forall x :: x in s.lists.inactive ==> HotPage(s, x)
  }

  /** If a scan can evict a page, some round does. */
  lemma ScanServes(s: State, priority: nat)
    requires Searching(s) && priority > 0 && |s.lists.inactive| >= 2 && InReach(s) && !AllHotPages(s)
    ensures FetchFree(s, priority) != OutOfMemory
  {
    hide FetchFree, SC.Reclaim, EvictSelf;
    IdleRounds(s, priority);
    FirstRoundLooks(|s.lists.inactive|, priority);
    var p := FirstRound(|s.lists.inactive|, priority);
    PolicyYields(s);
    PolicyHot(s);
    SC.ReclaimEvicts(PolicyOf(s), SC.SWAP_CLUSTER_COUNT, p);
    ReclaimedLists(s, p);
    RoundServes(s, p);
  }

  lemma RoundServes(s: State, p: nat)
    requires Searching(s) && p > 0 && Reclaimed(s, SC.SWAP_CLUSTER_COUNT, p).lists.eviction != []
    ensures FetchFree(s, p) != OutOfMemory
  {
    hide Reclaimed;
    ReclaimKeeps(s, SC.SWAP_CLUSTER_COUNT, p);
  }

  lemma PolicyYields(s: State)
    requires Inv(s) && InReach(s) && !AllHotPages(s)
    ensures SC.Yields(PolicyOf(s))
  {
    hide Inv, SC.IsHot, HotPage;
    PolicyHot(s);
    var x := PolicyOf(s);
    if |s.lists.inactive| < 100 * SC.SWAP_CLUSTER_COUNT {
      var p :| p in s.lists.inactive && !HotPage(s, p);
      assert p in x.inactive && !SC.IsHot(x, p);
    } else {
      var i :| 0 <= i < 100 * SC.SWAP_CLUSTER_COUNT && i < |s.lists.inactive| && Unaccessed(s, s.lists.inactive[i]);
      assert s.lists.inactive[i] in s.lists.inactive;
      assert x.inactive[i] !in x.accessed;
    }
  }

  /** What a round leaves of hot pages: the oldest active ones take their place, if
      the round cools at all, and they are not hot. */
  lemma HotRound(s: State, p: nat)
    requires Searching(s) && p > 0 && AllHotPages(s) && 0 < |s.lists.inactive| < 100 * SC.SWAP_CLUSTER_COUNT
    requires ShiftRight(|s.lists.inactive|, p) == 1
    ensures var (t, all) := (Reclaimed(s, SC.SWAP_CLUSTER_COUNT, p), |s.lists.active| + |s.lists.inactive|);
      && Searching(t) && FetchFree(s, p) == FetchFree(t, p - 1)
      && |t.lists.inactive| == (if ShiftRight(|s.lists.active|, p) == 0 then 0 else SC.Min(SC.SWAP_CLUSTER_COUNT, all))
      && forall x :: x in t.lists.inactive ==> !HotPage(t, x)
  {
    hide Inv, SC.Reclaim, HotPage, SC.IsHot, FetchFree;
    PolicyHot(s);
    var x := PolicyOf(s);
    assert SC.AllHot(x);
    SC.HotReclaim(x, SC.SWAP_CLUSTER_COUNT, p);
    ReclaimKeeps(s, SC.SWAP_CLUSTER_COUNT, p);
    ReclaimedLists(s, p);
    var y := SC.Reclaim(x, SC.SWAP_CLUSTER_COUNT, p).policy;
    var t := Reclaimed(s, SC.SWAP_CLUSTER_COUNT, p);
    forall q | q in t.lists.inactive ensures !HotPage(t, q) {
      AdoptedUncounted(s, y, q);
    }
    RoundGoesOn(s, p);
  }

  lemma RoundGoesOn(s: State, p: nat)
    requires Searching(s) && p > 0 && Reclaimed(s, SC.SWAP_CLUSTER_COUNT, p).lists.eviction == []
    ensures Inv(Reclaimed(s, SC.SWAP_CLUSTER_COUNT, p))
    ensures FetchFree(s, p) == FetchFree(Reclaimed(s, SC.SWAP_CLUSTER_COUNT, p), p - 1)
  {
    hide Reclaimed;
    ReclaimKeeps(s, SC.SWAP_CLUSTER_COUNT, p);
  }

  lemma AdoptedUncounted(s: State, y: SC.Policy, q: nat)
    requires q in y.inactive && SC.Count(y, q) == 0
    ensures !HotPage(Adopt(s, y), q)
  {}

  lemma NothingLooked(s: State, priority: nat)
    requires Searching(s) && |s.lists.inactive| < 2
    ensures FetchFree(s, priority) == OutOfMemory
  {
    hide Searching;
    IdleRounds(s, priority);
    if priority > 0 { FirstRoundLooks(|s.lists.inactive|, priority); }
  }

  /** When all inactive pages are hot, what matters is whether a page takes their place
      before the last round. */
  lemma HotRunsOut(s: State)
    requires Searching(s) && AllHotPages(s) && 2 <= |s.lists.inactive| < 100 * SC.SWAP_CLUSTER_COUNT
    ensures var p := FirstRound(|s.lists.inactive|, 12);
      FetchFree(s, 12) == OutOfMemory <==> p == 1 || ShiftRight(|s.lists.active|, p) == 0
  {
    hide Searching, FetchFree, HotPage, Reclaimed;
    IdleRounds(s, 12);
    FirstRoundLooks(|s.lists.inactive|, 12);
    NotAtOnce(|s.lists.inactive|);
    var p := FirstRound(|s.lists.inactive|, 12);
    HotRound(s, p);
    var t := Reclaimed(s, SC.SWAP_CLUSTER_COUNT, p);
    if |t.lists.inactive| < 2 {
      NothingLooked(t, p - 1);
    } else if p == 1 {
      NoPriority(t);
    } else {
      assert t.lists.inactive[0] in t.lists.inactive;
      ScanServes(t, p - 1);
    }
  }

  lemma NoPriority(s: State)
    requires Searching(s)
    ensures FetchFree(s, 0) == OutOfMemory
  {}

  lemma NotSearching(s: State)
    requires Inv(s) && !Searching(s)
    ensures FetchFree(s, 12) != OutOfMemory
  {
    ReclaimKeeps(s, SC.SWAP_CLUSTER_COUNT, 12);
    hide Inv, Reclaimed;
    ReclaimedGrows(s, 12);
  }

  /** The search ends at "Out of memory" exactly when nothing is free or awaiting
      eviction, the lists hold more than half of DRAM, and the inactive pages are spent:
      fewer than two, or all hot with nothing to take their place before the last round. */
  lemma OutOfMemoryIff(s: State)
    requires Inv(s) && InReach(s)
    ensures FetchFree(s, 12) == OutOfMemory <==> Searching(s) && Spent(s, 12)
  {
    hide Inv, FetchFree, HotPage, InReach;
    if !Searching(s) {
      NotSearching(s);
    } else if |s.lists.inactive| < 2 {
      NothingLooked(s, 12);
    } else if AllHotPages(s) {
      HotInReach(s);
      HotRunsOut(s);
    } else {
      ScanServes(s, 12);
    }
  }

  lemma HotInReach(s: State)
    requires InReach(s) && AllHotPages(s)
    ensures |s.lists.inactive| < 100 * SC.SWAP_CLUSTER_COUNT
  {
    if i :| 0 <= i < 100 * SC.SWAP_CLUSTER_COUNT && i < |s.lists.inactive| && Unaccessed(s, s.lists.inactive[i]) {
      assert s.lists.inactive[i] in s.lists.inactive;
    }
  }

  /** In a machine of more than 64 frames, of which at most 32 are handed out, the
      search always ends; and it finds a frame whenever the tracked pages fit the
      slots and the inactive pages, in reach of one scan, are not spent. */
  lemma FetchSucceeds(s: State)
    requires Inv(s) && Frames(s) > 64 && |Laws.HeldFrames(s)| <= 32
    ensures FetchFree(s, 12) != Stuck
    ensures InReach(s) && !Spent(s, 12) && |s.index| <= Slots(s) ==> FetchFree(s, 12).Got?
  {
    hide FetchFree, InReach, Spent;
    StuckIff(s, 12);
    FetchFindsSlot12(s);
    if InReach(s) {
      OutOfMemoryIff(s);
    }
    PolicyListsCard(s);
  }

  lemma FetchFindsSlot12(s: State)
    requires Inv(s)
    ensures |s.index| <= Slots(s) ==> FetchFree(s, 12) != NoDiskPage
  {
    if |s.index| <= Slots(s) {
      FetchFindsSlot(s, 12);
    }
  }

  lemma PolicyListsCard(s: State)
    requires Inv(s)
    ensures |s.lists.active| + |s.lists.inactive| + |s.lists.eviction|
         == Frames(s) - |s.lists.dramFree| - |Laws.HeldFrames(s)|
  {
    Laws.FramesLaw(s);
    Laws.ResidentCard(s);
    Laws.MappedCard(s);
  }
}
