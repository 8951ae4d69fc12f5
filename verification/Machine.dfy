/** The state that the paging core and the replacement policy share, as a value.

    A descriptor (`struct user_page`) is named by its address.  The DRAM frames
    and the disk slots are only offsets: what a page holds is kept in `ram`, by
    the virtual address it is mapped at, or in `disk`, by slot offset. */
module Machine {

  const PAGE_SIZE: nat := 4096

  newtype Byte = x: int | 0 <= x < 256

  type Bytes = b: seq<Byte> | |b| == PAGE_SIZE witness seq(PAGE_SIZE, _ => 0)

  /** What a page holds when it is first touched. */
  function ZeroPage(): (b: Bytes)
    ensures forall i :: 0 <= i < PAGE_SIZE ==> b[i] == 0
  {
    seq(PAGE_SIZE, _ => 0)
  }

  datatype Option<+T> = None | Some(value: T)

  // ----- descriptors and lists -----

  datatype Queue = Active | Inactive | Eviction | DramFree | DiskActive | DiskFree | DiskReserve

  datatype Desc = Desc(
    va: nat,
    offset: nat,
    inDram: bool,
    swappedOut: bool,
    migrating: bool,
    hasReserve: bool,
    present: bool,
    naccesses: nat,
    reserve: Option<nat>,
    list: Option<Queue>)

  /** Every list is written oldest entry first: the entry that `dequeue_fifo`
      takes next stands at index 0. */
  datatype Lists = Lists(
    active: seq<nat>,
    inactive: seq<nat>,
    eviction: seq<nat>,
    dramFree: seq<nat>,
    diskActive: seq<nat>,
    diskFree: seq<nat>,
    diskReserve: seq<nat>)
  {
    function Get(q: Queue): seq<nat> {
      match q
      case Active => active
      case Inactive => inactive
      case Eviction => eviction
      case DramFree => dramFree
      case DiskActive => diskActive
      case DiskFree => diskFree
      case DiskReserve => diskReserve
    }

    function Put(q: Queue, l: seq<nat>): Lists {
      match q
      case Active => this.(active := l)
      case Inactive => this.(inactive := l)
      case Eviction => this.(eviction := l)
      case DramFree => this.(dramFree := l)
      case DiskActive => this.(diskActive := l)
      case DiskFree => this.(diskFree := l)
      case DiskReserve => this.(diskReserve := l)
    }
  }

  /** What the kernel and the device hold. */
  datatype Memory = Memory(
    ram: map<nat, Bytes>,     // what is mapped: va -> contents
    dirty: set<nat>,          // page-table bits and write protection, by va
    accessed: set<nat>,
    protected: set<nat>,
    disk: map<nat, Bytes>)    // slot offset -> contents

  datatype State = State(
    desc: map<nat, Desc>,
    lists: Lists,
    index: map<nat, nat>,     // the page table of core.c: va -> descriptor
    mem: Memory,
    dramsize: nat,
    disksize: nat,
    memAllocated: int)

  function Frames(s: State): nat {
    s.dramsize / PAGE_SIZE
  }

  function Slots(s: State): nat {
    s.disksize / PAGE_SIZE
  }

  /** `n >> k`. */
  function ShiftRight(n: nat, k: nat): nat {
    if k == 0 then n else ShiftRight(n / 2, k - 1)
  }

  ghost function SetOf(l: seq<nat>): set<nat> {
    set x | x in l
  }

  lemma SubsetCard(xs: set<nat>, ys: set<nat>)
    requires xs <= ys
    ensures |xs| <= |ys|
  {
    assert ys == xs + (ys - xs);
  }

  // ----- list operations on the state -----

  function Without(l: seq<nat>, p: nat): (r: seq<nat>) {
    if l == [] then [] else if l[0] == p then l[1..] else [l[0]] + Without(l[1..], p)
  }

  ghost predicate NoDup(l: seq<nat>) {
    forall i, j :: 0 <= i < j < |l| ==> l[i] != l[j]
  }

  lemma {:induction false} WithoutFacts(l: seq<nat>, p: nat)
    requires NoDup(l)
    ensures NoDup(Without(l, p))
    ensures forall x :: x in Without(l, p) <==> x in l && x != p
    ensures |Without(l, p)| == if p in l then |l| - 1 else |l|
  {
    if l != [] {
      var t := l[1..];
      assert forall i :: 0 <= i < |t| ==> t[i] == l[i + 1];
      WithoutFacts(t, p);
      assert l == [l[0]] + t;
      if l[0] != p {
        var w := Without(t, p);
        assert forall i :: 0 <= i < |w| ==> w[i] in t;
        assert l[0] !in w;
      }
    }
  }

  lemma {:induction false} WithoutSplit(a: seq<nat>, p: nat, b: seq<nat>)
    requires p !in a
    ensures Without(a + [p] + b, p) == a + b
  {
    if a == [] {
      assert a + [p] + b == [p] + b;
      assert a + b == b;
    } else {
      assert (a + [p] + b)[1..] == a[1..] + [p] + b;
      WithoutSplit(a[1..], p, b);
      assert a + b == [a[0]] + (a[1..] + b);
    }
  }

  lemma WithoutHead(l: seq<nat>)
    requires l != []
    ensures Without(l, l[0]) == l[1..]
  {}

  function Enqueue(s: State, q: Queue, p: nat): (t: State)
    requires p in s.desc
  {
    s.(lists := s.lists.Put(q, s.lists.Get(q) + [p]),
       desc := s.desc[p := s.desc[p].(list := Some(q))])
  }

  function Detach(s: State, q: Queue, p: nat): (t: State)
    requires p in s.desc
  {
    s.(lists := s.lists.Put(q, Without(s.lists.Get(q), p)),
       desc := s.desc[p := s.desc[p].(list := None)])
  }

  function SetDesc(s: State, p: nat, d: Desc): (t: State)
  {
    s.(desc := s.desc[p := d])
  }

  // ----- what the user sees -----

  /** The contents of every tracked page, wherever they are kept. */
  function Content(s: State, p: nat): (b: Bytes) {
    if p !in s.desc then ZeroPage()
    else if s.desc[p].inDram then
      if s.desc[p].va in s.mem.ram then s.mem.ram[s.desc[p].va] else ZeroPage()
    else
      if s.desc[p].offset in s.mem.disk then s.mem.disk[s.desc[p].offset] else ZeroPage()
  }

  function UserMemory(s: State): (m: map<nat, Bytes>) {
    map va | va in s.index :: Content(s, s.index[va])
  }

  // ----- the invariant -----
  //
  // Each part says one thing of every descriptor or every address.  The
  // quantifiers are instantiated only where a proof names the part.

  ghost predicate Linked(s: State, p: nat)
    requires p in s.desc
  {
    s.desc[p].list.Some? ==> p in s.lists.Get(s.desc[p].list.value)
  }

  /** The lists and the back pointers agree. */
  ghost predicate ListsOk(s: State) {
    && (forall q: Queue {:trigger s.lists.Get(q)} :: NoDup(s.lists.Get(q)))
    && (forall q: Queue, p: nat {:trigger p in s.lists.Get(q)} ::
          p in s.lists.Get(q) ==> p in s.desc && s.desc[p].list == Some(q))
    && (forall p {:trigger Linked(s, p)} :: p in s.desc ==> Linked(s, p))
  }

  ghost predicate Resident(d: Desc) {
    d.inDram && !d.swappedOut && !d.migrating && d.va != 0
  }

  ghost predicate FreeFrame(d: Desc) {
    d.inDram && d.va == 0 && !d.hasReserve
  }

  ghost predicate Swapped(d: Desc) {
    !d.inDram && d.swappedOut && d.va != 0 && !d.hasReserve
  }

  ghost predicate Spare(d: Desc) {
    !d.inDram && d.swappedOut && d.va == 0
  }

  /** The list a descriptor is on and its flags dictate each other.  A descriptor
      on no list is a frame handed out or a page whose slot is being read. */
  ghost predicate RoleOk(d: Desc) {
    && !d.present
    && (d.hasReserve <==> d.reserve.Some?)
    && match d.list
       case Some(Active) => Resident(d)
       case Some(Inactive) => Resident(d)
       case Some(Eviction) => Resident(d)
       case Some(DramFree) => FreeFrame(d)
       case Some(DiskActive) => Swapped(d) && !d.migrating
       case Some(DiskFree) => Spare(d) && !d.hasReserve
       case Some(DiskReserve) => Spare(d) && d.hasReserve
       case None => FreeFrame(d) || (Swapped(d) && d.migrating)
  }

  ghost predicate RolesOk(s: State) {
    forall p {:trigger RoleOk(s.desc[p])} :: p in s.desc ==> RoleOk(s.desc[p])
  }

  ghost predicate Paired(s: State, p: nat)
    requires p in s.desc
  {
    s.desc[p].reserve.Some? ==>
      && s.desc[p].reserve.value in s.desc
      && s.desc[s.desc[p].reserve.value].reserve == Some(p)
      && s.desc[s.desc[p].reserve.value].inDram != s.desc[p].inDram
  }

  /** `reserve` is a one-to-one pairing of resident pages with reserve slots. */
  ghost predicate PairsOk(s: State) {
    forall p {:trigger Paired(s, p)} :: p in s.desc ==> Paired(s, p)
  }

  /** Where a descriptor points: a DRAM frame (true) or a disk slot (false). */
  function Place(s: State, p: nat): (bool, nat)
    requires p in s.desc
  {
    (s.desc[p].inDram, s.desc[p].offset)
  }

  predicate InRange(s: State, place: (bool, nat)) {
    place.1 % PAGE_SIZE == 0 && place.1 / PAGE_SIZE < if place.0 then Frames(s) else Slots(s)
  }

  function InDram(s: State): set<nat> {
    set p | p in s.desc && s.desc[p].inDram
  }

  function OnDisk(s: State): set<nat> {
    set p | p in s.desc && !s.desc[p].inDram
  }

  /** Every frame and every slot belongs to exactly one descriptor. */
  ghost predicate PlacesOk(s: State) {
    && (forall p, q {:trigger Place(s, p), Place(s, q)} ::
          p in s.desc && q in s.desc && p != q ==> Place(s, p) != Place(s, q))
    && (forall p {:trigger InRange(s, Place(s, p))} :: p in s.desc ==> InRange(s, Place(s, p)))
    && |InDram(s)| == Frames(s)
    && |OnDisk(s)| == Slots(s)
  }

  ghost predicate Indexed(s: State, va: nat)
    requires va in s.index
  {
    va != 0 && va % PAGE_SIZE == 0 && s.index[va] in s.desc && s.desc[s.index[va]].va == va
  }

  ghost predicate Tracked(s: State, p: nat)
    requires p in s.desc
  {
    s.desc[p].va != 0 ==> s.desc[p].va in s.index && s.index[s.desc[p].va] == p
  }

  /** The page table maps exactly the tracked pages by their address. */
  ghost predicate IndexOk(s: State) {
    && (forall va {:trigger Indexed(s, va)} :: va in s.index ==> Indexed(s, va))
    && (forall p {:trigger Tracked(s, p)} :: p in s.desc ==> Tracked(s, p))
    && s.memAllocated == PAGE_SIZE * |s.index|
  }

  ghost predicate Backed(s: State, p: nat)
    requires p in s.desc
  {
    && (s.desc[p].inDram && s.desc[p].va != 0 ==> s.desc[p].va in s.mem.ram)
    && (!s.desc[p].inDram ==> s.desc[p].offset in s.mem.disk)
    && (s.desc[p].inDram && s.desc[p].reserve.Some? && s.desc[p].va !in s.mem.dirty ==>
          Content(s, s.desc[p].reserve.value) == Content(s, p))
  }

  ghost predicate Mapped(s: State, va: nat) {
    va in s.index && s.index[va] in s.desc && s.desc[s.index[va]].inDram
  }

  /** Mapped are exactly the resident pages, and a clean page with a reserve
      still equals its reserve slot. */
  ghost predicate MemoryOk(s: State) {
    && (forall p {:trigger Backed(s, p)} :: p in s.desc ==> Backed(s, p))
    && (forall va {:trigger Mapped(s, va)} :: va in s.mem.ram ==> Mapped(s, va))
    && s.mem.dirty <= s.mem.ram.Keys
    && s.mem.accessed <= s.mem.ram.Keys
    && s.mem.protected == {}
  }

  lemma DetachLists(s: State, q: Queue, p: nat, r: Queue)
    requires p in s.desc
    ensures Detach(s, q, p).lists.Get(r) == if r == q then Without(s.lists.Get(q), p) else s.lists.Get(r)
  {}

  lemma DetachKeepsLists(s: State, q: Queue, p: nat)
    requires ListsOk(s) && p in s.desc && s.desc[p].list == Some(q)
    ensures ListsOk(Detach(s, q, p))
  {
    hide Lists.Get, Lists.Put, Without;
    var t := Detach(s, q, p);
    assert NoDup(s.lists.Get(q));
    WithoutFacts(s.lists.Get(q), p);
    forall r: Queue ensures NoDup(t.lists.Get(r)) {
      DetachLists(s, q, p, r);
      assert NoDup(s.lists.Get(r));
    }
    forall r: Queue, x: nat | x in t.lists.Get(r) ensures x in t.desc && t.desc[x].list == Some(r) {
      DetachLists(s, q, p, r);
      assert x in s.lists.Get(r);
    }
    forall x | x in t.desc ensures Linked(t, x) {
      assert Linked(s, x);
      if t.desc[x].list.Some? { DetachLists(s, q, p, t.desc[x].list.value); }
    }
  }

  lemma EnqueueLists(s: State, q: Queue, p: nat, r: Queue)
    requires p in s.desc
    ensures Enqueue(s, q, p).lists.Get(r) == if r == q then s.lists.Get(q) + [p] else s.lists.Get(r)
  {}

  lemma EnqueueKeepsLists(s: State, q: Queue, p: nat)
    requires ListsOk(s) && p in s.desc && s.desc[p].list == None
    ensures ListsOk(Enqueue(s, q, p))
  {
    hide Lists.Get, Lists.Put;
    var t := Enqueue(s, q, p);
    forall r: Queue ensures NoDup(t.lists.Get(r)) {
      EnqueueLists(s, q, p, r);
      assert NoDup(s.lists.Get(r)) && p !in s.lists.Get(r);
    }
    forall r: Queue, x: nat | x in t.lists.Get(r) ensures x in t.desc && t.desc[x].list == Some(r) {
      EnqueueLists(s, q, p, r);
      assert p !in s.lists.Get(r);
    }
    forall x | x in t.desc ensures Linked(t, x) {
      assert Linked(s, x);
      if t.desc[x].list.Some? { EnqueueLists(s, q, p, t.desc[x].list.value); }
    }
  }

  /** `ListsOk` looks at nothing but the lists and the back pointers. */
  lemma SameListsOk(s: State, t: State)
    requires ListsOk(s) && t.lists == s.lists && t.desc.Keys == s.desc.Keys
    requires forall p :: p in s.desc ==> t.desc[p].list == s.desc[p].list
    ensures ListsOk(t)
  {
    forall q: Queue ensures NoDup(t.lists.Get(q)) {
      assert NoDup(s.lists.Get(q));
    }
    forall p | p in t.desc ensures Linked(t, p) {
      assert Linked(s, p);
    }
  }

  /** Two descriptors, one in DRAM and one on disk, trade places. */
  lemma PlacesSwap(s: State, t: State, v: nat, d: nat)
    requires PlacesOk(s) && v in s.desc && d in s.desc && s.desc[v].inDram && !s.desc[d].inDram
    requires t.desc.Keys == s.desc.Keys && t.dramsize == s.dramsize && t.disksize == s.disksize
    requires Place(t, v) == Place(s, d) && Place(t, d) == Place(s, v)
    requires forall p {:trigger Place(t, p)} :: p in s.desc && p != v && p != d ==> Place(t, p) == Place(s, p)
    ensures PlacesOk(t)
  {
    forall p | p in t.desc ensures InRange(t, Place(t, p)) {
      assert InRange(s, Place(s, p)) && InRange(s, Place(s, v)) && InRange(s, Place(s, d));
    }
    PlacesSwapCount(s, t, v, d);
  }

  lemma PlacesStay(s: State, t: State)
    requires PlacesOk(s) && t.desc.Keys == s.desc.Keys && t.dramsize == s.dramsize && t.disksize == s.disksize
    requires forall p {:trigger Place(t, p)} :: p in s.desc ==> Place(t, p) == Place(s, p)
    ensures PlacesOk(t)
  {
    forall p | p in t.desc ensures InRange(t, Place(t, p)) && t.desc[p].inDram == s.desc[p].inDram {
      assert InRange(s, Place(s, p)) && Place(t, p) == Place(s, p);
    }
    assert InDram(t) == InDram(s);
    assert OnDisk(t) == OnDisk(s);
  }

  lemma PlacesSwapCount(s: State, t: State, v: nat, d: nat)
    requires v in s.desc && d in s.desc && s.desc[v].inDram && !s.desc[d].inDram
    requires t.desc.Keys == s.desc.Keys
    requires Place(t, v) == Place(s, d) && Place(t, d) == Place(s, v)
    requires forall p {:trigger Place(t, p)} :: p in s.desc && p != v && p != d ==> Place(t, p) == Place(s, p)
    ensures |InDram(t)| == |InDram(s)| && |OnDisk(t)| == |OnDisk(s)|
  {
    forall p | p in s.desc && p != v && p != d ensures t.desc[p].inDram == s.desc[p].inDram {
      assert Place(t, p) == Place(s, p);
    }
    assert InDram(t) == InDram(s) - {v} + {d};
    assert OnDisk(t) == OnDisk(s) - {d} + {v};
  }

  ghost predicate Inv(s: State) {
    ListsOk(s) && RolesOk(s) && PairsOk(s) && PlacesOk(s) && IndexOk(s) && MemoryOk(s)
  }

  /** Between operations no frame is handed out and no page is being read. */
  ghost predicate Settled(s: State) {
    forall p :: p in s.desc ==> s.desc[p].list.Some?
  }

  ghost predicate Quiescent(s: State) {
    Inv(s) && Settled(s)
  }

  /** Two states hold the same pages for the user and lend out the same
      descriptors: what a step of the policy may not disturb. */
  ghost predicate SameForUser(s: State, t: State) {
    && t.index == s.index
    && t.memAllocated == s.memAllocated
    && t.dramsize == s.dramsize && t.disksize == s.disksize
    && t.desc.Keys == s.desc.Keys
    && UserMemory(t) == UserMemory(s)
  }

  /** Listless descriptors stay as they are. */
  ghost predicate KeepsLoans(s: State, t: State) {
    forall p :: p in s.desc && s.desc[p].list == None ==> p in t.desc && t.desc[p] == s.desc[p]
  }

  /** What a step of the policy may do: the user and the holders of lent
      descriptors cannot tell `t` from `s`. */
  ghost predicate Invisible(s: State, t: State) {
    SameForUser(s, t) && KeepsLoans(s, t)
  }

  lemma InvisibleTrans(s: State, t: State, u: State)
    requires Invisible(s, t) && Invisible(t, u)
    ensures Invisible(s, u)
  {}

  // ----- steps that touch nothing but lists, access counts and accessed bits -----

  /** `t` differs from `s` in nothing but lists, access counts and accessed bits. */
  ghost predicate SamePages(s: State, t: State) {
    && t == s.(desc := t.desc, lists := t.lists, mem := s.mem.(accessed := t.mem.accessed))
    && t.desc.Keys == s.desc.Keys
    && t.mem.accessed <= s.mem.accessed
    && forall p {:trigger t.desc[p]} :: p in s.desc ==>
         t.desc[p] == s.desc[p].(naccesses := t.desc[p].naccesses, list := t.desc[p].list)
  }

  lemma SamePagesPlaces(s: State, t: State)
    requires PlacesOk(s) && SamePages(s, t)
    ensures PlacesOk(t)
  {
    forall p | p in s.desc ensures Place(t, p) == Place(s, p) {}
    PlacesStay(s, t);
  }

  lemma SamePagesPairs(s: State, t: State)
    requires PairsOk(s) && SamePages(s, t)
    ensures PairsOk(t)
  {
    forall p | p in t.desc ensures Paired(t, p) { assert Paired(s, p); }
  }

  lemma SamePagesIndex(s: State, t: State)
    requires IndexOk(s) && SamePages(s, t)
    ensures IndexOk(t)
  {
    forall p | p in t.desc ensures Tracked(t, p) { assert Tracked(s, p); }
    forall va | va in t.index ensures Indexed(t, va) { assert Indexed(s, va); }
  }

  lemma SamePagesMemory(s: State, t: State)
    requires MemoryOk(s) && SamePages(s, t)
    ensures MemoryOk(t)
  {
    forall p | p in t.desc ensures Backed(t, p) { assert Backed(s, p); }
    forall va | va in t.mem.ram ensures Mapped(t, va) { assert Mapped(s, va); }
  }

  lemma SamePagesUser(s: State, t: State)
    requires SamePages(s, t)
    ensures SameForUser(s, t)
  {
    forall p ensures Content(t, p) == Content(s, p) {}
    assert UserMemory(t) == UserMemory(s);
  }
}
