/** `lrudisk_init`: the descriptors of all frames and slots, on their free lists. */
module Boot {
  import opened Machine
  import opened Fifo
  import P = Pager

  function BootDesc(frames: nat, a: nat): Desc {
    if a < frames then Desc(0, a * PAGE_SIZE, true, false, false, false, false, 0, None, Some(DramFree))
    else Desc(0, (a - frames) * PAGE_SIZE, false, true, false, false, false, 0, None, Some(DiskFree))
  }

  function From(a: nat, n: nat): seq<nat> {
    seq(n, k requires 0 <= k < n => a + k)
  }

  /** After `i` frames and `j` slots. */
  function Booting(dramsize: nat, disksize: nat, disk: map<nat, Bytes>, i: nat, j: nat): State {
    State(map a: nat | a < i + j :: BootDesc(i, a),
          Lists([], [], [], From(0, i), [], From(i, j), []), map[], Memory(map[], {}, {}, {}, disk), dramsize, disksize, 0)
  }

  function Booted(dramsize: nat, disksize: nat, disk: map<nat, Bytes>): State {
    Booting(dramsize, disksize, disk, dramsize / PAGE_SIZE, disksize / PAGE_SIZE)
  }

  lemma NextFrame(dramsize: nat, disksize: nat, disk: map<nat, Bytes>, i: nat)
    ensures var (s, d) := (Booting(dramsize, disksize, disk, i, 0), BootDesc(i + 1, i).(list := None));
      i !in s.desc && Enqueue(SetDesc(s, i, d), DramFree, i) == Booting(dramsize, disksize, disk, i + 1, 0)
  {
    var (s, d) := (Booting(dramsize, disksize, disk, i, 0), BootDesc(i + 1, i).(list := None));
    var (t, u) := (Enqueue(SetDesc(s, i, d), DramFree, i), Booting(dramsize, disksize, disk, i + 1, 0));
    assert t.desc == u.desc;
    assert From(0, i) + [i] == From(0, i + 1) && From(i, 0) == From(i + 1, 0);
  }

  lemma NextSlot(dramsize: nat, disksize: nat, disk: map<nat, Bytes>, i: nat, j: nat)
    ensures var (s, d) := (Booting(dramsize, disksize, disk, i, j), BootDesc(i, i + j).(list := None));
      i + j !in s.desc && Enqueue(SetDesc(s, i + j, d), DiskFree, i + j) == Booting(dramsize, disksize, disk, i, j + 1)
  {
    var (s, d) := (Booting(dramsize, disksize, disk, i, j), BootDesc(i, i + j).(list := None));
    var (t, u) := (Enqueue(SetDesc(s, i + j, d), DiskFree, i + j), Booting(dramsize, disksize, disk, i, j + 1));
    assert t.desc == u.desc;
    assert From(i, j) + [i + j] == From(i, j + 1);
  }

  lemma {:induction false} RangeCard(a: nat, b: nat, xs: set<nat>)
    requires a <= b && forall x: nat :: x in xs <==> a <= x < b
    ensures |xs| == b - a
    decreases b
  {
    if a < b {
      RangeCard(a, b - 1, xs - {b - 1});
    } else {
      assert xs == {};
    }
  }

  lemma BootedLists(dramsize: nat, disksize: nat, disk: map<nat, Bytes>)
    ensures ListsOk(Booted(dramsize, disksize, disk)) && Settled(Booted(dramsize, disksize, disk))
  {
    var s := Booted(dramsize, disksize, disk);
    forall p | p in s.desc ensures Machine.Linked(s, p) {
      var i := dramsize / PAGE_SIZE;
      assert p < i ==> s.lists.dramFree[p] == p;
      assert p >= i ==> s.lists.diskFree[p - i] == p;
    }
  }

  lemma BootedPlaces(dramsize: nat, disksize: nat, disk: map<nat, Bytes>)
    ensures PlacesOk(Booted(dramsize, disksize, disk))
  {
    var (s, i, j) := (Booted(dramsize, disksize, disk), dramsize / PAGE_SIZE, disksize / PAGE_SIZE);
    RangeCard(0, i, InDram(s));
    RangeCard(i, i + j, OnDisk(s));
    forall p | p in s.desc ensures InRange(s, Place(s, p)) {}
  }

  /** The pager starts in a quiescent state with nothing tracked, if the device is
      as large as it is said to be; frames and slots stand on their free lists in the
      order of their offsets. */
  lemma BootedQuiescent(dramsize: nat, disksize: nat, disk: map<nat, Bytes>)
    requires forall k: nat :: k < disksize / PAGE_SIZE ==> k * PAGE_SIZE in disk
    ensures Quiescent(Booted(dramsize, disksize, disk)) && Booted(dramsize, disksize, disk).index == map[]
    ensures var s := Booted(dramsize, disksize, disk);
      && |s.lists.dramFree| == dramsize / 4096 && |s.lists.diskFree| == disksize / 4096
      && (forall i :: 0 <= i < |s.lists.dramFree| ==>
            var p := s.lists.dramFree[i]; p in s.desc && s.desc[p].inDram && s.desc[p].offset == 4096 * i)
      && (forall i :: 0 <= i < |s.lists.diskFree| ==>
            var p := s.lists.diskFree[i]; p in s.desc && !s.desc[p].inDram && s.desc[p].offset == 4096 * i)
  {
    BootedLists(dramsize, disksize, disk);
    BootedPlaces(dramsize, disksize, disk);
    hide ListsOk, PlacesOk;
    var s := Booted(dramsize, disksize, disk);
    forall p | p in s.desc ensures Backed(s, p) {}
  }

  method AddFrame(g: P.Pager, i: nat, ghost disk: map<nat, Bytes>)
    requires g.Valid() && g.state == Booting(g.dramsize, g.disksize, disk, i, 0)
    modifies g.Repr()
    ensures fresh(g.Repr() - old(g.Repr())) && g.Valid() && g.state == Booting(g.dramsize, g.disksize, disk, i + 1, 0)
  {
    hide P.Pager.Valid, Booting;
    NextFrame(g.dramsize, g.disksize, disk, i);
    g.NotYet(i);
    var p := g.Calloc(i, i * PAGE_SIZE, true);
    g.Enqueue(DramFree, p);
  }

  method AddSlot(g: P.Pager, i: nat, j: nat, ghost disk: map<nat, Bytes>)
    requires g.Valid() && g.state == Booting(g.dramsize, g.disksize, disk, i, j)
    modifies g.Repr()
    ensures fresh(g.Repr() - old(g.Repr())) && g.Valid() && g.state == Booting(g.dramsize, g.disksize, disk, i, j + 1)
  {
    hide P.Pager.Valid, Booting;
    NextSlot(g.dramsize, g.disksize, disk, i, j);
    g.NotYet(i + j);
    var p := g.Calloc(i + j, j * PAGE_SIZE, false);
    g.Enqueue(DiskFree, p);
  }

  method EmptyPager(dramsize: nat, disksize: nat, disk: map<nat, Bytes>) returns (g: P.Pager)
    ensures fresh(g.Repr()) && g.Valid() && g.dramsize == dramsize && g.disksize == disksize
    ensures g.state == Booting(dramsize, disksize, disk, 0, 0)
  {
    hide P.Pager.Valid, Booting;
    var lists := P.NewLists(7);
    g := new P.Pager(lists, dramsize, disksize, disk);
    g.MemoryIs();
    NothingYet(dramsize, disksize, disk);
  }

  method AddFrames(g: P.Pager, n: nat, ghost disk: map<nat, Bytes>)
    requires g.Valid() && g.state == Booting(g.dramsize, g.disksize, disk, 0, 0)
    modifies g.Repr()
    ensures fresh(g.Repr() - old(g.Repr())) && g.Valid() && g.state == Booting(g.dramsize, g.disksize, disk, n, 0)
  {
    hide P.Pager.Valid, Booting;
    var i: nat := 0;
    while i < n
      invariant i <= n && fresh(g.Repr() - old(g.Repr())) && g.Valid()
      invariant g.state == Booting(g.dramsize, g.disksize, disk, i, 0)
    {
      AddFrame(g, i, disk);
      i := i + 1;
    }
  }

  method AddSlots(g: P.Pager, i: nat, n: nat, ghost disk: map<nat, Bytes>)
    requires g.Valid() && g.state == Booting(g.dramsize, g.disksize, disk, i, 0)
    modifies g.Repr()
    ensures fresh(g.Repr() - old(g.Repr())) && g.Valid() && g.state == Booting(g.dramsize, g.disksize, disk, i, n)
  {
    hide P.Pager.Valid, Booting;
    var j: nat := 0;
    while j < n
      invariant j <= n && fresh(g.Repr() - old(g.Repr())) && g.Valid()
      invariant g.state == Booting(g.dramsize, g.disksize, disk, i, j)
    {
      AddSlot(g, i, j, disk);
      j := j + 1;
    }
  }

  method LrudiskInit(dramsize: nat, disksize: nat, disk: map<nat, Bytes>) returns (g: P.Pager)
    requires forall k: nat :: k < disksize / PAGE_SIZE ==> k * PAGE_SIZE in disk
    ensures fresh(g.Repr()) && g.Valid() && g.state == Booted(dramsize, disksize, disk)
    ensures Quiescent(g.state) && UserMemory(g.state) == map[]
  {
    hide P.Pager.Valid, Quiescent, Booting;
    g := EmptyPager(dramsize, disksize, disk);
    AddFrames(g, dramsize / PAGE_SIZE, disk);
    AddSlots(g, dramsize / PAGE_SIZE, disksize / PAGE_SIZE, disk);
    BootedQuiescent(dramsize, disksize, disk);
  }

  lemma NothingYet(dramsize: nat, disksize: nat, disk: map<nat, Bytes>)
    ensures State(map[], Lists([], [], [], [], [], [], []), map[], Memory(map[], {}, {}, {}, disk), dramsize, disksize, 0)
         == Booting(dramsize, disksize, disk, 0, 0)
  {
    assert Booting(dramsize, disksize, disk, 0, 0).desc.Keys == {};
  }
}
