/** Bringing pages into DRAM: the major fault and the first touch. */
module SwapIn {
  import opened Machine
  import opened Fetch

  /** The page-table bits the kernel leaves behind when it maps a page. */
  datatype Bits = Bits(dirty: bool, accessed: bool)

  function With(xs: set<nat>, x: nat, yes: bool): set<nat> {
    if yes then xs + {x} else xs - {x}
  }

  /** UFFDIO_COPY: `bytes` appear at `va`. */
  function Copy(m: Memory, va: nat, bytes: Bytes, bits: Bits): Memory {
    m.(ram := m.ram[va := bytes], dirty := With(m.dirty, va, bits.dirty), accessed := With(m.accessed, va, bits.accessed))
  }

  // ----- a page is taken off its list for reading -----

  predicate SwappedOut(s: State, p: nat) {
    p in s.desc && s.desc[p].list == Some(DiskActive)
  }

  function StartRead(s: State, p: nat): (t: State)
    requires p in s.desc
  {
    Detach(SetDesc(s, p, s.desc[p].(migrating := true)), DiskActive, p)
  }

  lemma StartReadLists(s: State, p: nat)
    requires ListsOk(s) && SwappedOut(s, p)
    ensures ListsOk(StartRead(s, p))
  {
    DetachKeepsLists(s, DiskActive, p);
    SameListsOk(Detach(s, DiskActive, p), StartRead(s, p));
  }

  /** Nothing but list and `migrating` of one descriptor, and some lists, differ. */
  ghost predicate OnlyMarked(s: State, t: State, p: nat) {
    && p in s.desc
    && t == s.(desc := t.desc, lists := t.lists)
    && t.desc.Keys == s.desc.Keys
    && (forall x {:trigger t.desc[x]} :: x in s.desc && x != p ==> t.desc[x] == s.desc[x])
    && t.desc[p] == s.desc[p].(migrating := t.desc[p].migrating, list := t.desc[p].list)
  }

  lemma OnlyMarkedPlaces(s: State, t: State, p: nat)
    requires PlacesOk(s) && OnlyMarked(s, t, p)
    ensures PlacesOk(t)
  {
    forall x | x in s.desc ensures Place(t, x) == Place(s, x) {}
    PlacesStay(s, t);
  }

  lemma OnlyMarkedPairs(s: State, t: State, p: nat)
    requires PairsOk(s) && OnlyMarked(s, t, p)
    ensures PairsOk(t)
  {
    forall x | x in t.desc ensures Paired(t, x) { assert Paired(s, x); }
  }

  lemma OnlyMarkedIndex(s: State, t: State, p: nat)
    requires IndexOk(s) && OnlyMarked(s, t, p)
    ensures IndexOk(t)
  {
    forall x | x in t.desc ensures Tracked(t, x) { assert Tracked(s, x); }
    forall va | va in t.index ensures Indexed(t, va) { assert Indexed(s, va); }
  }

  lemma OnlyMarkedMemory(s: State, t: State, p: nat)
    requires MemoryOk(s) && OnlyMarked(s, t, p)
    ensures MemoryOk(t) && SameForUser(s, t)
  {
    forall x ensures Content(t, x) == Content(s, x) {}
    forall x | x in t.desc ensures Backed(t, x) { assert Backed(s, x); }
    forall va | va in t.mem.ram ensures Mapped(t, va) { assert Mapped(s, va); }
    assert UserMemory(t) == UserMemory(s);
  }

  lemma OneRole(s: State, t: State, p: nat)
    requires RolesOk(s) && p in s.desc && t.desc.Keys == s.desc.Keys && RoleOk(t.desc[p])
    requires forall x {:trigger t.desc[x]} :: x in s.desc && x != p ==> t.desc[x] == s.desc[x]
    ensures RolesOk(t)
  {
    forall x | x in t.desc ensures RoleOk(t.desc[x]) { assert RoleOk(s.desc[x]); }
  }

  lemma StartReadKeeps(s: State, p: nat)
    requires Inv(s) && SwappedOut(s, p)
    ensures Inv(StartRead(s, p)) && Invisible(s, StartRead(s, p))
    ensures StartRead(s, p).desc[p].list == None && Swapped(StartRead(s, p).desc[p])
  {
    var t := StartRead(s, p);
    assert OnlyMarked(s, t, p) && RoleOk(s.desc[p]);
    assert RoleOk(t.desc[p]);
    hide Inv, ListsOk, OnlyMarked, SameForUser;
    assert ListsOk(s) && RolesOk(s) && PairsOk(s) && PlacesOk(s) && IndexOk(s) && MemoryOk(s) by { InvParts(s); }
    StartReadLists(s, p);
    OneRole(s, t, p);
    OnlyMarkedPlaces(s, t, p);
    OnlyMarkedPairs(s, t, p);
    OnlyMarkedIndex(s, t, p);
    OnlyMarkedMemory(s, t, p);
    InvWhole(t);
  }

  lemma InvParts(s: State)
    requires Inv(s)
    ensures ListsOk(s) && RolesOk(s) && PairsOk(s) && PlacesOk(s) && IndexOk(s) && MemoryOk(s)
  {}

  lemma InvWhole(s: State)
    requires ListsOk(s) && RolesOk(s) && PairsOk(s) && PlacesOk(s) && IndexOk(s) && MemoryOk(s)
    ensures Inv(s)
  {}

  // ----- the page is mapped, and its slot becomes its reserve -----

  function FinishRead(s: State, p: nat, f: nat, bytes: Bytes, bits: Bits): (t: State)
    requires p in s.desc && f in s.desc && p != f
  {
    var (dp, df) := (s.desc[p], s.desc[f]);
    s.(desc := s.desc
         [p := dp.(offset := df.offset, inDram := true, swappedOut := false, migrating := false,
                   hasReserve := true, reserve := Some(f), list := Some(Inactive))]
         [f := df.(offset := dp.offset, inDram := false, swappedOut := true, migrating := false,
                   hasReserve := true, reserve := Some(p), list := Some(DiskReserve))],
       lists := s.lists.(inactive := s.lists.inactive + [p], diskReserve := s.lists.diskReserve + [f]),
       mem := Copy(s.mem, dp.va, bytes, bits))
  }

  /** `p` is a page being read and `f` a frame handed out for it. */
  ghost predicate Loaned(s: State, p: nat, f: nat) {
    && p in s.desc && s.desc[p].list == None && Swapped(s.desc[p])
    && f in s.desc && s.desc[f].list == None && FreeFrame(s.desc[f])
  }

  lemma FinishLists(s: State, p: nat, f: nat, bytes: Bytes, bits: Bits)
    requires ListsOk(s) && Loaned(s, p, f)
    ensures ListsOk(FinishRead(s, p, f, bytes, bits))
  {
    EnqueueKeepsLists(s, DiskReserve, f);
    var u := Enqueue(s, DiskReserve, f);
    EnqueueKeepsLists(u, Inactive, p);
    SameListsOk(Enqueue(u, Inactive, p), FinishRead(s, p, f, bytes, bits));
  }

  lemma FinishRolesPairs(s: State, p: nat, f: nat, bytes: Bytes, bits: Bits)
    requires RolesOk(s) && PairsOk(s) && Loaned(s, p, f)
    ensures RolesOk(FinishRead(s, p, f, bytes, bits)) && PairsOk(FinishRead(s, p, f, bytes, bits))
  {
    var t := FinishRead(s, p, f, bytes, bits);
    assert RoleOk(s.desc[p]) && RoleOk(s.desc[f]);
    forall x | x in t.desc ensures RoleOk(t.desc[x]) { assert RoleOk(s.desc[x]); }
    forall x | x in t.desc ensures Paired(t, x) { assert Paired(s, x); }
  }

  lemma FinishPlaces(s: State, p: nat, f: nat, bytes: Bytes, bits: Bits)
    requires PlacesOk(s) && Loaned(s, p, f)
    ensures PlacesOk(FinishRead(s, p, f, bytes, bits))
  {
    PlacesSwap(s, FinishRead(s, p, f, bytes, bits), f, p);
  }

  lemma FinishIndex(s: State, p: nat, f: nat, bytes: Bytes, bits: Bits)
    requires IndexOk(s) && Loaned(s, p, f)
    ensures IndexOk(FinishRead(s, p, f, bytes, bits))
  {
    var t := FinishRead(s, p, f, bytes, bits);
    forall x | x in t.desc ensures Tracked(t, x) { assert Tracked(s, x); }
    forall va | va in t.index ensures Indexed(t, va) { assert Indexed(s, va); }
  }

  /** No page changes for the user when the bytes that arrive are the slot's. */
  lemma FinishContent(s: State, p: nat, f: nat, bytes: Bytes, bits: Bits, x: nat)
    requires IndexOk(s) && PlacesOk(s) && Loaned(s, p, f) && bytes == Content(s, p)
    requires x in s.desc && (s.desc[x].inDram ==> s.desc[x].va != 0)
    ensures Content(FinishRead(s, p, f, bytes, bits), x) == Content(s, x)
  {
    assert Tracked(s, p) && Tracked(s, x);
  }

  lemma FinishMemory(s: State, p: nat, f: nat, bytes: Bytes, bits: Bits)
    requires RolesOk(s) && PairsOk(s) && IndexOk(s) && PlacesOk(s) && MemoryOk(s)
    requires Loaned(s, p, f) && bytes == Content(s, p)
    ensures MemoryOk(FinishRead(s, p, f, bytes, bits))
  {
    var t := FinishRead(s, p, f, bytes, bits);
    assert RoleOk(s.desc[p]) && RoleOk(s.desc[f]);
    assert Tracked(s, p) && Backed(s, p);
    forall x | x in t.desc ensures Backed(t, x) {
      assert Backed(s, x) && Tracked(s, x) && Paired(s, x) && RoleOk(s.desc[x]);
      if x != p && x != f && s.desc[x].inDram && s.desc[x].reserve.Some? {
        var r := s.desc[x].reserve.value;
        FinishContent(s, p, f, bytes, bits, x);
        FinishContent(s, p, f, bytes, bits, r);
      }
    }
    forall va | va in t.mem.ram ensures Mapped(t, va) {
      if va != s.desc[p].va {
        assert Mapped(s, va) && Indexed(s, va);
      }
    }
  }

  lemma FinishUser(s: State, p: nat, f: nat, bytes: Bytes, bits: Bits)
    requires IndexOk(s) && PlacesOk(s) && Loaned(s, p, f) && bytes == Content(s, p)
    ensures SameForUser(s, FinishRead(s, p, f, bytes, bits))
  {
    var t := FinishRead(s, p, f, bytes, bits);
    forall va | va in s.index ensures Content(t, s.index[va]) == Content(s, s.index[va]) {
      assert Indexed(s, va);
      FinishContent(s, p, f, bytes, bits, s.index[va]);
    }
    assert UserMemory(t) == UserMemory(s);
  }

  /** Mapping a page that was read keeps the invariant and the user's memory. */
  lemma FinishKeeps(s: State, p: nat, f: nat, bytes: Bytes, bits: Bits)
    requires Inv(s) && Loaned(s, p, f) && bytes == Content(s, p)
    ensures Inv(FinishRead(s, p, f, bytes, bits)) && SameForUser(s, FinishRead(s, p, f, bytes, bits))
  {
    hide FinishRead, Loaned, SameForUser, Content, ListsOk, RolesOk, PairsOk, PlacesOk, IndexOk, MemoryOk;
    FinishLists(s, p, f, bytes, bits);
    FinishRolesPairs(s, p, f, bytes, bits);
    FinishPlaces(s, p, f, bytes, bits);
    FinishIndex(s, p, f, bytes, bits);
    FinishMemory(s, p, f, bytes, bits);
    FinishUser(s, p, f, bytes, bits);
  }
}
