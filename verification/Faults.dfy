/** The fault handlers: first touch, and the major fault with its overlapped read. */
module Faults {
  import opened Machine
  import opened Fetch
  import opened SwapIn
  import opened Lifetime

  /** A handler's end; a failure names the assert of `fetch_free_asynch` it stops at. */
  datatype Result = Ok(state: State) | Failed(why: Outcome)

  // ----- descriptors on loan -----

  /** Exactly the descriptors in `loan` are on no list. */
  ghost predicate Lends(s: State, loan: set<nat>) {
    forall p {:trigger s.desc[p]} :: p in s.desc ==> (s.desc[p].list == None <==> p in loan)
  }

  lemma ServedLends(s: State, t: State, f: nat, loan: set<nat>)
    requires Served(s, t, f) && Lends(s, loan)
    ensures f !in loan && Lends(t, loan + {f})
  {
    hide Inv, SameForUser;
    assert t.desc.Keys == s.desc.Keys by { SameKeys(s, t); }
  }

  lemma SameKeys(s: State, t: State)
    requires SameForUser(s, t)
    ensures t.desc.Keys == s.desc.Keys && t.index == s.index
  {}

  lemma TrackedContent(s: State, t: State, va: nat)
    requires SameForUser(s, t) && va in s.index
    ensures va in t.index && t.index[va] == s.index[va] && Content(t, s.index[va]) == Content(s, s.index[va])
  {
    assert UserMemory(t)[va] == UserMemory(s)[va];
  }

  // ----- lrudisk_pagefault -----

  function Busy(s: State, f: nat): State
    requires f in s.desc
  {
    SetDesc(s, f, s.desc[f].(migrating := true))
  }

  lemma BusyKeeps(s: State, f: nat)
    requires Inv(s) && f in s.desc && s.desc[f].list == None && FreeFrame(s.desc[f])
    ensures Inv(Busy(s, f)) && SameForUser(s, Busy(s, f))
  {
    var t := Busy(s, f);
    BusyDesc(s, f);
    hide Inv, Busy, ListsOk, OnlyMarked, SameForUser;
    InvParts(s);
    SameListsOk(s, t);
    OneRole(s, t, f);
    OnlyMarkedPlaces(s, t, f);
    OnlyMarkedPairs(s, t, f);
    OnlyMarkedIndex(s, t, f);
    OnlyMarkedMemory(s, t, f);
    InvWhole(t);
  }

  lemma BusyDesc(s: State, f: nat)
    requires RolesOk(s) && f in s.desc && s.desc[f].list == None && FreeFrame(s.desc[f])
    ensures var t := Busy(s, f);
      && OnlyMarked(s, t, f) && RoleOk(t.desc[f]) && t.lists == s.lists && t.desc.Keys == s.desc.Keys
      && (forall x :: x in s.desc ==> t.desc[x].list == s.desc[x].list)
      && (forall x :: x in s.desc && x != f ==> t.desc[x] == s.desc[x])
  {
    assert RoleOk(s.desc[f]);
  }

  /** A frame for a faulting thread, marked so that nobody evicts it. */
  ghost function PageFault(s: State): (r: Outcome)
    requires Inv(s)
  {
    var r := FetchFree(s, 12);
    if r.Got? then
      FetchKeeps(s, 12);
      Got(Busy(r.state, r.frame), r.frame)
    else r
  }

  lemma PageFaultKeeps(s: State)
    requires Inv(s) && PageFault(s).Got?
    ensures Served(s, PageFault(s).state, PageFault(s).frame)
  {
    hide FetchFree;
    FetchKeeps(s, 12);
    var r := FetchFree(s, 12);
    BusyKeeps(r.state, r.frame);
    BusyServed(s, r.state, r.frame);
  }

  lemma BusyServed(s: State, t: State, f: nat)
    requires Served(s, t, f) && Inv(Busy(t, f)) && SameForUser(t, Busy(t, f))
    ensures Served(s, Busy(t, f), f)
  {
    hide Inv;
  }

  // ----- handle_first_fault -----

  /** The frame goes back unused: another thread was first. */
  function PutBack(s: State, f: nat): State
    requires f in s.desc
  {
    Enqueue(s, DramFree, f)
  }

  lemma PutBackKeeps(s: State, f: nat)
    requires Inv(s) && f in s.desc && s.desc[f].list == None && FreeFrame(s.desc[f])
    ensures Inv(PutBack(s, f)) && SameForUser(s, PutBack(s, f))
  {
    var t := PutBack(s, f);
    PutBackDesc(s, f);
    hide Inv, PutBack, ListsOk, OnlyMarked, SameForUser;
    InvParts(s);
    PutBackLists(s, f);
    OneRole(s, t, f);
    OnlyMarkedPlaces(s, t, f);
    OnlyMarkedPairs(s, t, f);
    OnlyMarkedIndex(s, t, f);
    OnlyMarkedMemory(s, t, f);
    InvWhole(t);
  }

  lemma PutBackLists(s: State, f: nat)
    requires ListsOk(s) && f in s.desc && s.desc[f].list == None
    ensures ListsOk(PutBack(s, f))
  {
    EnqueueKeepsLists(s, DramFree, f);
  }

  lemma PutBackDesc(s: State, f: nat)
    requires RolesOk(s) && f in s.desc && s.desc[f].list == None && FreeFrame(s.desc[f])
    ensures var t := PutBack(s, f);
      && OnlyMarked(s, t, f) && RoleOk(t.desc[f]) && t.desc.Keys == s.desc.Keys && t.desc[f].list.Some?
      && (forall x :: x in s.desc && x != f ==> t.desc[x] == s.desc[x])
  {
    assert RoleOk(s.desc[f]);
  }

  ghost function FirstFault(s: State, va: nat, bits: Bits): (r: Result)
    requires Inv(s)
  {
    var r := PageFault(s);
    if !r.Got? then Failed(r)
    else
      PageFaultKeeps(s);
      if va in r.state.index then Ok(PutBack(r.state, r.frame))
      else Ok(MapFresh(r.state, r.frame, va, bits))
  }

  /** After a first fault the page at `va` is there: it is new and zero, or it was
      tracked before; no other page changed. */
  lemma FirstFaultKeeps(s: State, va: nat, bits: Bits)
    requires Quiescent(s) && Aligned(va) && FirstFault(s, va, bits).Ok?
    ensures var t := FirstFault(s, va, bits).state;
      && Quiescent(t)
      && UserMemory(t) == (if va in s.index then UserMemory(s) else UserMemory(s)[va := ZeroPage()])
      && (va !in s.index ==> va in t.mem.ram)
  {
    hide Inv, PutBack, MapFresh, UserMemory;
    PageFaultKeeps(s);
    var r := PageFault(s);
    SameKeys(s, r.state);
    SameUser(s, r.state);
    assert Lends(s, {});
    ServedLends(s, r.state, r.frame, {});
    if va in s.index {
      PutBackKeeps(r.state, r.frame);
      PutBackSettles(r.state, r.frame);
      SameUser(r.state, PutBack(r.state, r.frame));
    } else {
      FreshKeeps(r.state, r.frame, va, bits);
      FreshSettles(r.state, r.frame, va, bits);
    }
  }

  lemma SameUser(s: State, t: State)
    requires SameForUser(s, t)
    ensures UserMemory(t) == UserMemory(s) && t.index == s.index
  {}

  lemma PutBackSettles(s: State, f: nat)
    requires Lends(s, {f}) && f in s.desc
    ensures Settled(PutBack(s, f))
  {}

  lemma FreshSettles(s: State, f: nat, va: nat, bits: Bits)
    requires Lends(s, {f}) && f in s.desc
    ensures Settled(MapFresh(s, f, va, bits)) && va in MapFresh(s, f, va, bits).mem.ram
  {}

  // ----- handle_missing_fault -----

  /** The read of the slot is started, a frame is found, the read is awaited, the
      page is mapped.  `late` says whether the device delivered the bytes after
      the frame was found. */
  ghost function MissingFault(s: State, p: nat, late: bool, bits: Bits): (r: Result)
    requires Inv(s) && SwappedOut(s, p)
  {
    StartReadKeeps(s, p);
    var s1 := StartRead(s, p);
    var r := FetchFree(s1, 12);
    if !r.Got? then Failed(r)
    else
      FetchKeeps(s1, 12);
      assert p in r.state.desc && p != r.frame by { LoanSurvives(s1, r.state, r.frame, p); }
      Ok(FinishRead(r.state, p, r.frame, Content(if late then r.state else s1, p), bits))
  }

  /** A page being read is still being read, and unchanged, when a frame was found. */
  lemma LoanSurvives(s: State, t: State, f: nat, p: nat)
    requires Served(s, t, f) && p in s.desc && s.desc[p].list == None
    ensures p in t.desc && t.desc[p] == s.desc[p] && p != f && f in t.desc
    ensures Swapped(s.desc[p]) ==> Loaned(t, p, f)
  {}

  lemma SlotUntouched(s: State, t: State, p: nat)
    requires Inv(s) && SameForUser(s, t) && p in s.desc && s.desc[p].va != 0
    ensures Content(t, p) == Content(s, p)
  {
    assert Tracked(s, p);
    TrackedContent(s, t, s.desc[p].va);
  }

  lemma FinishSettles(s: State, p: nat, f: nat, bytes: Bytes, bits: Bits, loan: set<nat>)
    requires Lends(s, loan) && Loaned(s, p, f)
    ensures Lends(FinishRead(s, p, f, bytes, bits), loan - {p, f})
    ensures s.desc[p].va in FinishRead(s, p, f, bytes, bits).mem.ram
  {}

  lemma StartLends(s: State, p: nat, loan: set<nat>)
    requires Lends(s, loan) && SwappedOut(s, p)
    ensures p !in loan && Lends(StartRead(s, p), loan + {p})
  {}

  /** A major fault maps the page with the contents it had; whatever is evicted to
      make room, the slot under the read stays untouched. */
  lemma MissingFaultKeeps(s: State, p: nat, late: bool, bits: Bits)
    requires Quiescent(s) && SwappedOut(s, p) && MissingFault(s, p, late, bits).Ok?
    ensures var t := MissingFault(s, p, late, bits).state;
      Quiescent(t) && SameForUser(s, t) && s.desc[p].va in t.mem.ram
  {
    hide FetchFree, Inv, StartRead, FinishRead, SameForUser, Content, KeepsLoans;
    var s1 := StartRead(s, p);
    StartReadKeeps(s, p);
    StartLends(s, p, {});
    StartReadVa(s, p);
    FetchKeeps(s1, 12);
    var r := FetchFree(s1, 12);
    LoanSurvives(s1, r.state, r.frame, p);
    ServedLends(s1, r.state, r.frame, {p});
    SlotUntouched(s1, r.state, p);
    var bytes := Content(if late then r.state else s1, p);
    FinishKeeps(r.state, p, r.frame, bytes, bits);
    FinishSettles(r.state, p, r.frame, bytes, bits, {p} + {r.frame});
    SameForUserTrans(s, s1, r.state);
    SameForUserTrans(s, r.state, FinishRead(r.state, p, r.frame, bytes, bits));
    assert {p} + {r.frame} - {p, r.frame} == {};
  }

  lemma StartReadVa(s: State, p: nat)
    requires p in s.desc
    ensures p in StartRead(s, p).desc && StartRead(s, p).desc[p].va == s.desc[p].va
  {}

  lemma SameForUserTrans(s: State, t: State, u: State)
    requires SameForUser(s, t) && SameForUser(t, u)
    ensures SameForUser(s, u)
  {}
}
