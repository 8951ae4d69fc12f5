/** The two ends of a tracked page's life: its first touch and its unmapping. */
module Lifetime {
  import opened Machine
  import opened SwapIn

  // ----- first touch -----

  predicate Aligned(va: nat) {
    va != 0 && va % PAGE_SIZE == 0
  }

  /** The frame `f` becomes the page at `va`, mapped with zeros. */
  function MapFresh(s: State, f: nat, va: nat, bits: Bits): (t: State)
    requires f in s.desc
  {
    s.(desc := s.desc[f := s.desc[f].(va := va, migrating := false, swappedOut := false, list := Some(Inactive))],
       lists := s.lists.(inactive := s.lists.inactive + [f]),
       index := s.index[va := f],
       mem := Copy(s.mem, va, ZeroPage(), bits),
       memAllocated := s.memAllocated + PAGE_SIZE)
  }

  ghost predicate Fresh(s: State, f: nat, va: nat) {
    && f in s.desc && s.desc[f].list == None && FreeFrame(s.desc[f])
    && Aligned(va) && va !in s.index
  }

  lemma FreshLists(s: State, f: nat, va: nat, bits: Bits)
    requires ListsOk(s) && Fresh(s, f, va)
    ensures ListsOk(MapFresh(s, f, va, bits))
  {
    EnqueueKeepsLists(s, Inactive, f);
    SameListsOk(Enqueue(s, Inactive, f), MapFresh(s, f, va, bits));
  }

  lemma FreshDesc(s: State, f: nat, va: nat, bits: Bits)
    requires RolesOk(s) && PairsOk(s) && PlacesOk(s) && Fresh(s, f, va)
    ensures var t := MapFresh(s, f, va, bits); RolesOk(t) && PairsOk(t) && PlacesOk(t)
  {
    var t := MapFresh(s, f, va, bits);
    assert RoleOk(s.desc[f]);
    forall x | x in t.desc ensures RoleOk(t.desc[x]) { assert RoleOk(s.desc[x]); }
    forall x | x in t.desc ensures Paired(t, x) { assert Paired(s, x); }
    forall x | x in s.desc ensures Place(t, x) == Place(s, x) {}
    PlacesStay(s, t);
  }

  lemma FreshIndex(s: State, f: nat, va: nat, bits: Bits)
    requires IndexOk(s) && Fresh(s, f, va)
    ensures IndexOk(MapFresh(s, f, va, bits))
  {
    var t := MapFresh(s, f, va, bits);
    assert t.index.Keys == s.index.Keys + {va};
    forall x | x in t.desc ensures Tracked(t, x) { assert Tracked(s, x); }
    forall v | v in t.index ensures Indexed(t, v) {
      if v != va {
        assert Indexed(s, v);
      }
    }
  }

  lemma FreshContent(s: State, f: nat, va: nat, bits: Bits, x: nat)
    requires IndexOk(s) && Fresh(s, f, va) && x in s.desc && x != f
    requires s.desc[x].inDram ==> s.desc[x].va != 0
    ensures Content(MapFresh(s, f, va, bits), x) == Content(s, x)
  {
    assert Tracked(s, x);
  }

  lemma FreshMemory(s: State, f: nat, va: nat, bits: Bits)
    requires RolesOk(s) && PairsOk(s) && IndexOk(s) && MemoryOk(s) && Fresh(s, f, va)
    ensures MemoryOk(MapFresh(s, f, va, bits))
  {
    var t := MapFresh(s, f, va, bits);
    assert RoleOk(s.desc[f]) && Backed(s, f);
    assert va in s.mem.ram ==> Mapped(s, va);
    forall x | x in t.desc ensures Backed(t, x) {
      assert Backed(s, x) && Tracked(s, x) && Paired(s, x) && RoleOk(s.desc[x]);
      if x != f && s.desc[x].inDram && s.desc[x].reserve.Some? {
        FreshContent(s, f, va, bits, x);
        FreshContent(s, f, va, bits, s.desc[x].reserve.value);
      }
    }
    forall v | v in t.mem.ram ensures Mapped(t, v) {
      if v != va {
        assert Mapped(s, v) && Indexed(s, v);
      }
    }
  }

  lemma FreshShape(s: State, f: nat, va: nat, bits: Bits)
    requires f in s.desc && FreeFrame(s.desc[f])
    ensures var t := MapFresh(s, f, va, bits);
      t.index == s.index[va := f] && Content(t, f) == ZeroPage()
  {}

  lemma FreshUser(s: State, f: nat, va: nat, bits: Bits)
    requires IndexOk(s) && Fresh(s, f, va)
    ensures UserMemory(MapFresh(s, f, va, bits)) == UserMemory(s)[va := ZeroPage()]
  {
    hide MapFresh, ZeroPage, Content;
    var t := MapFresh(s, f, va, bits);
    FreshShape(s, f, va, bits);
    forall v | v in s.index ensures v != va && s.index[v] != f && Content(t, s.index[v]) == Content(s, s.index[v]) {
      assert Indexed(s, v);
      FreshContent(s, f, va, bits, s.index[v]);
    }
    assert UserMemory(t).Keys == UserMemory(s).Keys + {va};
  }

  /** A first touch adds one page of zeros and changes nothing else for the user. */
  lemma FreshKeeps(s: State, f: nat, va: nat, bits: Bits)
    requires Inv(s) && Fresh(s, f, va)
    ensures Inv(MapFresh(s, f, va, bits))
    ensures UserMemory(MapFresh(s, f, va, bits)) == UserMemory(s)[va := ZeroPage()]
  {
    hide MapFresh, Fresh, UserMemory, ListsOk, RolesOk, PairsOk, PlacesOk, IndexOk, MemoryOk;
    FreshLists(s, f, va, bits);
    FreshDesc(s, f, va, bits);
    FreshIndex(s, f, va, bits);
    FreshMemory(s, f, va, bits);
    FreshUser(s, f, va, bits);
  }

  // ----- unmapping -----

  /** The page loses its identity; its frame or slot, and its reserve, are freed. */
  function Freed(s: State, p: nat): (t: State)
    requires p in s.desc && s.desc[p].list.Some?
  {
    var d := s.desc[p];
    var s1 := Detach(s, d.list.value, p);
    var s2 := SetDesc(s1, p, s1.desc[p].(va := 0, hasReserve := false, reserve := None, migrating := false, present := false));
    if d.inDram then
      if d.hasReserve && d.reserve.Some? && d.reserve.value in s.desc then
        var r := d.reserve.value;
        var s3 := Detach(s2, DiskReserve, r);
        var s4 := SetDesc(s3, r, s3.desc[r].(hasReserve := false, reserve := None, present := false));
        Enqueue(Enqueue(s4, DiskFree, r), DramFree, p)
      else Enqueue(s2, DramFree, p)
    else Enqueue(s2, DiskFree, p)
  }

  /** The page at `va` is untracked and unmapped. */
  function Drop(s: State, va: nat): (t: State)
    requires va in s.index && s.index[va] in s.desc && s.desc[s.index[va]].list.Some?
  {
    Freed(s, s.index[va]).(
      index := s.index - {va},
      mem := s.mem.(ram := s.mem.ram - {va}, dirty := s.mem.dirty - {va}, accessed := s.mem.accessed - {va}),
      memAllocated := s.memAllocated - PAGE_SIZE)
  }

  ghost predicate Droppable(s: State, va: nat) {
    va in s.index && s.index[va] in s.desc && s.desc[s.index[va]].list.Some?
  }

  lemma DropFacts(s: State, va: nat)
    requires RolesOk(s) && PairsOk(s) && IndexOk(s) && Droppable(s, va)
    ensures var (p, d) := (s.index[va], s.desc[s.index[va]]);
      && d.va == va && va != 0
      && (d.inDram ==> Resident(d)) && (!d.inDram ==> Swapped(d) && !d.hasReserve && d.list == Some(DiskActive))
      && (d.hasReserve <==> d.reserve.Some?)
      && (d.hasReserve ==> var r := d.reserve.value;
            r in s.desc && r != p && Spare(s.desc[r]) && s.desc[r].list == Some(DiskReserve)
            && s.desc[r].reserve == Some(p))
  {
    assert Indexed(s, va);
    var p := s.index[va];
    assert RoleOk(s.desc[p]) && Paired(s, p);
    if s.desc[p].hasReserve {
      assert RoleOk(s.desc[s.desc[p].reserve.value]);
    }
  }

  /** The descriptors after a drop: only the page and its reserve differ. */
  ghost predicate DropsDesc(s: State, t: State, p: nat)
    requires p in s.desc
  {
    && t.desc.Keys == s.desc.Keys
    && t.dramsize == s.dramsize && t.disksize == s.disksize
    && t.desc[p] == s.desc[p].(va := 0, hasReserve := false, reserve := None, migrating := false, present := false,
                               list := Some(if s.desc[p].inDram then DramFree else DiskFree))
    && forall x {:trigger t.desc[x]} :: x in s.desc && x != p ==>
         t.desc[x] == if s.desc[p].reserve == Some(x)
                      then s.desc[x].(hasReserve := false, reserve := None, present := false, list := Some(DiskFree))
                      else s.desc[x]
  }

  lemma DropDescIs(s: State, va: nat)
    requires RolesOk(s) && PairsOk(s) && IndexOk(s) && Droppable(s, va)
    ensures DropsDesc(s, Drop(s, va), s.index[va])
  {
    DropFacts(s, va);
  }

  lemma DropLists(s: State, va: nat)
    requires ListsOk(s) && RolesOk(s) && PairsOk(s) && IndexOk(s) && Droppable(s, va)
    ensures ListsOk(Drop(s, va))
  {
    DropFacts(s, va);
    hide RolesOk, PairsOk, IndexOk;
    var (p, d) := (s.index[va], s.desc[s.index[va]]);
    var s1 := Detach(s, d.list.value, p);
    DetachKeepsLists(s, d.list.value, p);
    if d.hasReserve {
      var r := d.reserve.value;
      DetachKeepsLists(s1, DiskReserve, r);
      var s3 := Detach(s1, DiskReserve, r);
      EnqueueKeepsLists(s3, DiskFree, r);
      EnqueueKeepsLists(Enqueue(s3, DiskFree, r), DramFree, p);
      SameListsOk(Enqueue(Enqueue(s3, DiskFree, r), DramFree, p), Drop(s, va));
    } else {
      var q := if d.inDram then DramFree else DiskFree;
      EnqueueKeepsLists(s1, q, p);
      SameListsOk(Enqueue(s1, q, p), Drop(s, va));
    }
  }

  lemma DropRoles(s: State, va: nat)
    requires RolesOk(s) && PairsOk(s) && IndexOk(s) && Droppable(s, va)
    ensures RolesOk(Drop(s, va)) && PairsOk(Drop(s, va))
  {
    hide Drop;
    DropFacts(s, va);
    DropDescIs(s, va);
    var (t, p) := (Drop(s, va), s.index[va]);
    forall x | x in t.desc ensures RoleOk(t.desc[x]) { assert RoleOk(s.desc[x]); }
    forall x | x in t.desc ensures Paired(t, x) { assert Paired(s, x) && Paired(s, p); }
  }

  lemma DropPlaces(s: State, va: nat)
    requires RolesOk(s) && PairsOk(s) && PlacesOk(s) && IndexOk(s) && Droppable(s, va)
    ensures PlacesOk(Drop(s, va))
  {
    hide Drop;
    DropDescIs(s, va);
    var t := Drop(s, va);
    forall x | x in s.desc ensures Place(t, x) == Place(s, x) {}
    PlacesStay(s, t);
  }

  lemma DropTracked(s: State, va: nat, x: nat)
    requires RolesOk(s) && PairsOk(s) && IndexOk(s) && Droppable(s, va) && x in s.desc
    ensures x in Drop(s, va).desc && Tracked(Drop(s, va), x)
  {
    DropFacts(s, va);
    DropDescIs(s, va);
    assert Tracked(s, x);
  }

  lemma DropIndexed(s: State, va: nat, v: nat)
    requires RolesOk(s) && PairsOk(s) && IndexOk(s) && Droppable(s, va) && v in s.index && v != va
    ensures Indexed(Drop(s, va), v)
  {
    DropFacts(s, va);
    DropDescIs(s, va);
    assert Indexed(s, v);
  }

  lemma DropShape(s: State, va: nat)
    requires Droppable(s, va)
    ensures var t := Drop(s, va);
      t.index == s.index - {va} && t.memAllocated == s.memAllocated - PAGE_SIZE && t.desc.Keys == s.desc.Keys
  {}

  lemma DropIndex(s: State, va: nat)
    requires RolesOk(s) && PairsOk(s) && IndexOk(s) && Droppable(s, va)
    ensures IndexOk(Drop(s, va))
  {
    hide Drop, RolesOk, PairsOk, Tracked, Indexed;
    DropShape(s, va);
    DropCount(s.index, va);
    var t := Drop(s, va);
    forall x | x in t.desc ensures Tracked(t, x) { DropTracked(s, va, x); }
    forall v | v in t.index ensures Indexed(t, v) { DropIndexed(s, va, v); }
  }

  lemma DropCount(m: map<nat, nat>, k: nat)
    requires k in m
    ensures |m - {k}| == |m| - 1
  {
    assert (m - {k}).Keys == m.Keys - {k};
    assert |m - {k}| == |(m - {k}).Keys| && |m| == |m.Keys|;
  }

  lemma DropContent(s: State, va: nat, x: nat)
    requires RolesOk(s) && PairsOk(s) && IndexOk(s) && Droppable(s, va)
    requires x in s.desc && x != s.index[va] && (s.desc[x].inDram ==> s.desc[x].va != 0)
    ensures Content(Drop(s, va), x) == Content(s, x)
  {
    DropFacts(s, va);
    assert Tracked(s, x);
  }

  lemma DropMemory(s: State, va: nat)
    requires RolesOk(s) && PairsOk(s) && IndexOk(s) && MemoryOk(s) && Droppable(s, va)
    ensures MemoryOk(Drop(s, va))
  {
    DropFacts(s, va);
    var (t, p) := (Drop(s, va), s.index[va]);
    forall x | x in t.desc ensures Backed(t, x) {
      assert Backed(s, x) && Tracked(s, x) && Paired(s, x) && Paired(s, p) && RoleOk(s.desc[x]);
      if x != p && s.desc[x].inDram && s.desc[x].reserve.Some? {
        var r := s.desc[x].reserve.value;
        DropContent(s, va, x);
        DropContent(s, va, r);
      }
    }
    forall v | v in t.mem.ram ensures Mapped(t, v) { assert Mapped(s, v) && Indexed(s, v) && Indexed(s, va); }
  }

  lemma DropUser(s: State, va: nat)
    requires RolesOk(s) && PairsOk(s) && IndexOk(s) && Droppable(s, va)
    ensures UserMemory(Drop(s, va)) == UserMemory(s) - {va}
  {
    var t := Drop(s, va);
    forall v | v in t.index ensures Content(t, t.index[v]) == Content(s, s.index[v]) {
      assert Indexed(s, v) && Indexed(s, va);
      DropContent(s, va, s.index[v]);
    }
    assert UserMemory(t).Keys == UserMemory(s).Keys - {va};
  }

  /** Dropping a page takes exactly that page from the user. */
  lemma DropKeeps(s: State, va: nat)
    requires Inv(s) && Droppable(s, va)
    ensures Inv(Drop(s, va)) && UserMemory(Drop(s, va)) == UserMemory(s) - {va}
  {
    hide Drop, Droppable, UserMemory, ListsOk, RolesOk, PairsOk, PlacesOk, IndexOk, MemoryOk;
    DropLists(s, va);
    DropRoles(s, va);
    DropPlaces(s, va);
    DropIndex(s, va);
    DropMemory(s, va);
    DropUser(s, va);
  }
}
