/** Conservation laws that follow from the invariant alone: frames, slots and
    tracked pages are never lost or counted twice. */
module Laws {
  import opened Machine

  // ----- counting -----

  lemma {:induction false} NoDupCard(l: seq<nat>)
    requires NoDup(l)
    ensures |SetOf(l)| == |l|
  {
    if l != [] {
      NoDupCard(l[1..]);
      assert l == [l[0]] + l[1..];
      assert SetOf(l) == {l[0]} + SetOf(l[1..]);
      assert l[0] !in l[1..];
    }
  }

  /** Two finite sets that `f` and `g` map into each other as inverses have equal size. */
  lemma {:induction false} BijectionCard(xs: set<nat>, ys: set<nat>, f: map<nat, nat>, g: map<nat, nat>)
    requires xs <= f.Keys && ys <= g.Keys
    requires forall x :: x in xs ==> f[x] in ys && g[f[x]] == x
    requires forall y :: y in ys ==> g[y] in xs && f[g[y]] == y
    ensures |xs| == |ys|
    decreases |xs|
  {
    if xs == {} {
      assert forall y :: y !in ys;
    } else {
      var x :| x in xs;
      BijectionCard(xs - {x}, ys - {f[x]}, f, g);
    }
  }

  /** `n` different numbers below `n` are all of them. */
  lemma {:induction false} FullBelow(xs: set<nat>, n: nat)
    requires (forall x :: x in xs ==> x < n) && |xs| == n
    ensures forall k: nat :: k < n ==> k in xs
  {
    if n > 0 {
      if n - 1 in xs {
        FullBelow(xs - {n - 1}, n - 1);
      } else {
        BelowCard(xs, n - 1);
      }
    }
  }

  lemma {:induction false} BelowCard(xs: set<nat>, n: nat)
    requires forall x :: x in xs ==> x < n
    ensures |xs| <= n
  {
    if n == 0 {
      assert xs == {};
    } else {
      BelowCard(xs - {n - 1}, n - 1);
    }
  }

  // ----- the parts of the descriptors -----

  ghost function TrackedPages(s: State): set<nat> {
    set p | p in s.desc && s.desc[p].va != 0
  }

  ghost function ResidentPages(s: State): set<nat> {
    set p | p in s.desc && s.desc[p].va != 0 && s.desc[p].inDram
  }

  ghost function SwappedPages(s: State): set<nat> {
    set p | p in s.desc && s.desc[p].va != 0 && !s.desc[p].inDram
  }

  ghost function ReservedPages(s: State): set<nat> {
    set p | p in s.desc && s.desc[p].inDram && s.desc[p].hasReserve
  }

  ghost function ReserveSlots(s: State): set<nat> {
    set p | p in s.desc && !s.desc[p].inDram && s.desc[p].hasReserve
  }

  ghost function HeldFrames(s: State): set<nat> {
    set p | p in s.desc && s.desc[p].list == None && s.desc[p].inDram
  }

  /** Resident pages that have no slot yet. */
  ghost function Unbacked(s: State): set<nat> {
    ResidentPages(s) - ReservedPages(s)
  }

  lemma TrackedCard(s: State)
    requires IndexOk(s)
    ensures |TrackedPages(s)| == |s.index|
  {
    var f := map p | p in TrackedPages(s) :: s.desc[p].va;
    forall p | p in TrackedPages(s) ensures f[p] in s.index && s.index[f[p]] == p {
      assert Tracked(s, p);
    }
    forall va | va in s.index ensures s.index[va] in TrackedPages(s) && f[s.index[va]] == va {
      assert Indexed(s, va);
    }
    BijectionCard(TrackedPages(s), s.index.Keys, f, s.index);
  }

  lemma MappedCard(s: State)
    requires IndexOk(s) && MemoryOk(s)
    ensures |ResidentPages(s)| == |s.mem.ram|
  {
    var f := map p | p in ResidentPages(s) :: s.desc[p].va;
    forall p | p in ResidentPages(s) ensures f[p] in s.mem.ram && f[p] in s.index && s.index[f[p]] == p {
      assert Tracked(s, p) && Backed(s, p);
    }
    forall va | va in s.mem.ram ensures va in s.index && s.index[va] in ResidentPages(s) && f[s.index[va]] == va {
      assert Mapped(s, va) && Indexed(s, va);
    }
    BijectionCard(ResidentPages(s), s.mem.ram.Keys, f, s.index);
  }

  lemma ReserveCard(s: State)
    requires RolesOk(s) && PairsOk(s)
    ensures |ReservedPages(s)| == |ReserveSlots(s)|
  {
    var r := map p | p in s.desc && s.desc[p].hasReserve && s.desc[p].reserve.Some? :: s.desc[p].reserve.value;
    forall p | p in s.desc && s.desc[p].hasReserve
      ensures p in r && r[p] in s.desc && r[p] in r && r[r[p]] == p && s.desc[r[p]].hasReserve
        && s.desc[r[p]].inDram != s.desc[p].inDram
    {
      assert RoleOk(s.desc[p]) && Paired(s, p);
      assert RoleOk(s.desc[s.desc[p].reserve.value]);
    }
    BijectionCard(ReservedPages(s), ReserveSlots(s), r, r);
  }

  lemma ListCard(s: State, q: Queue)
    requires ListsOk(s)
    ensures |s.lists.Get(q)| == |SetOf(s.lists.Get(q))|
    ensures forall p :: p in SetOf(s.lists.Get(q)) <==> p in s.desc && s.desc[p].list == Some(q)
  {
    assert NoDup(s.lists.Get(q));
    NoDupCard(s.lists.Get(q));
    forall p | p in s.desc && s.desc[p].list == Some(q) ensures p in s.lists.Get(q) {
      assert Linked(s, p);
    }
  }

  // ----- the laws -----

  lemma ResidentCard(s: State)
    requires ListsOk(s) && RolesOk(s)
    ensures |ResidentPages(s)| == |s.lists.active| + |s.lists.inactive| + |s.lists.eviction|
  {
    ListCard(s, Active);
    ListCard(s, Inactive);
    ListCard(s, Eviction);
    forall p | p in s.desc
      ensures p in ResidentPages(s) <==>
        s.desc[p].list == Some(Active) || s.desc[p].list == Some(Inactive) || s.desc[p].list == Some(Eviction)
    {
      assert RoleOk(s.desc[p]);
    }
    ThreeParts(ResidentPages(s), SetOf(s.lists.Get(Active)), SetOf(s.lists.Get(Inactive)), SetOf(s.lists.Get(Eviction)));
  }

  lemma ThreeParts(xs: set<nat>, a: set<nat>, b: set<nat>, c: set<nat>)
    requires forall x :: x in xs <==> x in a || x in b || x in c
    requires a !! b && a !! c && b !! c
    ensures |xs| == |a| + |b| + |c|
  {
    assert xs == a + b + c;
  }

  /** Every DRAM frame is mapped, free, or handed out: so what is mapped never
      exceeds the frames, also while a frame is handed out. */
  lemma FramesLaw(s: State)
    requires Inv(s)
    ensures |s.mem.ram| + |s.lists.dramFree| + |HeldFrames(s)| == Frames(s)
  {
    MappedCard(s);
    ListCard(s, DramFree);
    var free := SetOf(s.lists.Get(DramFree));
    forall p | p in s.desc
      ensures s.desc[p].list == Some(DramFree) ==> s.desc[p].inDram && s.desc[p].va == 0
      ensures s.desc[p].list == None && s.desc[p].inDram ==> s.desc[p].va == 0
      ensures s.desc[p].inDram && s.desc[p].va == 0 ==> s.desc[p].list == None || s.desc[p].list == Some(DramFree)
    {
      assert RoleOk(s.desc[p]);
    }
    ThreeParts(InDram(s), ResidentPages(s), free, HeldFrames(s));
  }

  lemma DiskParts(s: State)
    requires Inv(s)
    ensures Slots(s) == |SwappedPages(s)| + |s.lists.diskFree| + |ReserveSlots(s)|
  {
    ListCard(s, DiskFree);
    var free := SetOf(s.lists.Get(DiskFree));
    forall p | p in s.desc
      ensures s.desc[p].list == Some(DiskFree) ==> !s.desc[p].inDram && s.desc[p].va == 0 && !s.desc[p].hasReserve
      ensures !s.desc[p].inDram && s.desc[p].hasReserve ==> s.desc[p].va == 0
      ensures !s.desc[p].inDram && s.desc[p].va == 0 && !s.desc[p].hasReserve ==> s.desc[p].list == Some(DiskFree)
    {
      assert RoleOk(s.desc[p]);
    }
    ThreeParts(OnDisk(s), SwappedPages(s), free, ReserveSlots(s));
  }

  lemma TrackedParts(s: State)
    requires Inv(s)
    ensures |s.index| == |SwappedPages(s)| + |ReservedPages(s)| + |Unbacked(s)|
  {
    TrackedCard(s);
    forall p | p in s.desc && s.desc[p].inDram && s.desc[p].hasReserve ensures s.desc[p].va != 0 {
      assert RoleOk(s.desc[p]);
    }
    ThreeParts(TrackedPages(s), SwappedPages(s), ReservedPages(s), Unbacked(s));
  }

  /** Free slots and tracked pages balance: the slots fall short of the tracked
      pages by exactly the resident pages that still lack one. */
  lemma SlotsLaw(s: State)
    requires Inv(s)
    ensures |s.lists.diskFree| + |s.index| == Slots(s) + |Unbacked(s)|
  {
    DiskParts(s);
    TrackedParts(s);
    ReserveCard(s);
  }

  /** While the tracked pages do not outnumber the slots, a page on the eviction
      list that needs a fresh slot finds one. */
  lemma SlotForVictim(s: State, v: nat)
    requires Inv(s) && |s.index| <= Slots(s)
    requires v in s.desc && s.desc[v].list == Some(Eviction) && !s.desc[v].hasReserve
    ensures s.lists.diskFree != []
  {
    SlotsLaw(s);
    assert RoleOk(s.desc[v]);
    assert v in Unbacked(s);
  }

  // ----- every frame and every slot exactly once -----

  ghost function Numbers(s: State, ps: set<nat>): set<nat>
    requires ps <= s.desc.Keys
  {
    set p | p in ps :: s.desc[p].offset / PAGE_SIZE
  }

  lemma NumbersCard(s: State, ps: set<nat>, dram: bool)
    requires PlacesOk(s) && ps <= s.desc.Keys && forall p :: p in ps ==> s.desc[p].inDram == dram
    ensures |Numbers(s, ps)| == |ps|
    decreases |ps|
  {
    if ps != {} {
      var p :| p in ps;
      NumbersCard(s, ps - {p}, dram);
      assert Numbers(s, ps) == Numbers(s, ps - {p}) + {s.desc[p].offset / PAGE_SIZE};
      assert InRange(s, Place(s, p));
      forall q | q in ps - {p} ensures s.desc[q].offset / PAGE_SIZE != s.desc[p].offset / PAGE_SIZE {
        assert InRange(s, Place(s, q)) && Place(s, p) != Place(s, q);
      }
    }
  }

  /** Frame (or slot) `k` belongs to exactly one descriptor. */
  lemma EachPlaceOnce(s: State, dram: bool, k: nat) returns (p: nat)
    requires PlacesOk(s) && k < if dram then Frames(s) else Slots(s)
    ensures p in s.desc && Place(s, p) == (dram, k * PAGE_SIZE)
    ensures forall q :: q in s.desc && Place(s, q) == Place(s, p) ==> q == p
  {
    var ps := if dram then InDram(s) else OnDisk(s);
    NumbersCard(s, ps, dram);
    forall q | q in ps ensures InRange(s, Place(s, q)) {}
    FullBelow(Numbers(s, ps), |ps|);
    assert k in Numbers(s, ps);
    p :| p in ps && s.desc[p].offset / PAGE_SIZE == k;
    assert InRange(s, Place(s, p));
  }
}
