/** The scans of the active and inactive lists on the heap, against the policy
    of `SecondChance`. */
module Scan {
  import opened Machine
  import opened Fifo
  import opened Reclaim
  import P = Pager
  import SC = SecondChance

  /** `x` is a policy reached from the one of `s`: same pages, no new accesses, and
      the counts of pages on no policy list as they were. */
  ghost predicate Reached(s: State, x: SC.Policy) {
    && Rearranged(s, x)
    && forall p :: p in s.desc && QueueIn(x, p) == None ==> SC.Count(x, p) == s.desc[p].naccesses
  }

  lemma ReachedStart(s: State)
    requires Inv(s)
    ensures Reached(s, PolicyOf(s)) && Adopt(s, PolicyOf(s)) == s
  {
    var x := PolicyOf(s);
    forall p | p in s.desc ensures AdoptDesc(s.desc[p], x, p) == s.desc[p] {
      AdoptedQueue(s, x, p);
      assert Machine.Linked(s, p);
      assert p in s.lists.Get(Active) || p in s.lists.Get(Inactive) || p in s.lists.Get(Eviction) ==> s.desc[p].list == QueueIn(x, p);
    }
    assert Adopt(s, x).desc == s.desc;
    forall va | va in s.mem.accessed ensures va in s.index && s.index[va] in x.accessed {
      assert Mapped(s, va) && Indexed(s, va);
    }
    assert Adopt(s, x).mem.accessed == s.mem.accessed;
  }

  // ----- one page is moved -----

  function ListIn(x: SC.Policy, q: Queue): seq<nat> {
    match q
    case Active => x.active
    case Inactive => x.inactive
    case _ => x.eviction
  }

  function WithList(x: SC.Policy, q: Queue, l: seq<nat>): SC.Policy {
    match q
    case Active => x.(active := l)
    case Inactive => x.(inactive := l)
    case _ => x.(eviction := l)
  }

  predicate PolicyList(q: Queue) {
    q in {Active, Inactive, Eviction}
  }

  /** The oldest page of one list becomes the youngest of another. */
  function MoveHead(x: SC.Policy, from: Queue, to: Queue, n: nat, clear: bool): SC.Policy
    requires ListIn(x, from) != []
  {
    var p := ListIn(x, from)[0];
    var y := WithList(x, from, ListIn(x, from)[1..]);
    WithList(y, to, ListIn(y, to) + [p]).(
      counts := x.counts[p := n], accessed := if clear then x.accessed - {p} else x.accessed)
  }

  /** What the code does to the state for it. */
  ghost function MovePage(t: State, from: Queue, to: Queue, p: nat, n: nat, clear: bool): State
    requires p in t.desc
  {
    var u := Detach(t, from, p);
    var v := u.(desc := u.desc[p := u.desc[p].(naccesses := n)],
                mem := if clear then u.mem.(accessed := u.mem.accessed - {u.desc[p].va}) else u.mem);
    Enqueue(v, to, p)
  }

  lemma HeadFacts(s: State, x: SC.Policy, from: Queue)
    requires Inv(s) && Reached(s, x) && PolicyList(from) && ListIn(x, from) != []
    ensures var p := ListIn(x, from)[0];
      && p in s.desc && QueueIn(x, p) == Some(from) && s.desc[p].va != 0
      && (forall va :: va in s.index && s.index[va] == p <==> va == s.desc[p].va)
      && (s.desc[p].va in Adopt(s, x).mem.accessed <==> p in x.accessed)
      && Adopt(s, x).desc[p].va == s.desc[p].va
      && Adopt(s, x).desc[p].naccesses == SC.Count(x, p) && Adopt(s, x).desc[p].list == Some(from)
  {
    var p := ListIn(x, from)[0];
    assert p in ListIn(x, from);
    AdoptedQueue(s, x, p);
    assert RoleOk(s.desc[p]) && Tracked(s, p);
    forall va | va in s.index && s.index[va] == p ensures va == s.desc[p].va { assert Indexed(s, va); }
  }

  /** The lists after the move, seen one by one. */
  lemma MoveShape(x: SC.Policy, from: Queue, to: Queue, n: nat, clear: bool)
    requires PolicyList(from) && PolicyList(to) && ListIn(x, from) != []
    ensures var (y, l) := (MoveHead(x, from, to, n, clear), ListIn(x, from));
      && ListIn(y, to) == (if from == to then l[1..] else ListIn(x, to)) + [l[0]]
      && (from != to ==> ListIn(y, from) == l[1..])
      && (forall q {:trigger ListIn(y, q)} :: PolicyList(q) && q != from && q != to ==> ListIn(y, q) == ListIn(x, q))
      && y.counts == x.counts[l[0] := n] && y.accessed == if clear then x.accessed - {l[0]} else x.accessed
  {}

  lemma QueueInIs(x: SC.Policy, p: nat)
    requires p in x.active ==> p !in x.inactive && p !in x.eviction
    requires p in x.inactive ==> p !in x.eviction
    ensures forall q {:trigger ListIn(x, q)} :: PolicyList(q) ==> (p in ListIn(x, q) <==> QueueIn(x, p) == Some(q))
    ensures QueueIn(x, p).Some? ==> PolicyList(QueueIn(x, p).value)
  {}

  lemma QueueInOf(x: SC.Policy, p: nat, r: Option<Queue>)
    requires forall q {:trigger ListIn(x, q)} :: PolicyList(q) ==> (p in ListIn(x, q) <==> r == Some(q))
    requires r.Some? ==> PolicyList(r.value)
    ensures QueueIn(x, p) == r
  {
    assert p in ListIn(x, Active) <==> r == Some(Active);
    assert p in ListIn(x, Inactive) <==> r == Some(Inactive);
    assert p in ListIn(x, Eviction) <==> r == Some(Eviction);
  }

  lemma InTail(l: seq<nat>, q: nat)
    requires NoDup(l) && l != []
    ensures q in l[1..] <==> q in l && q != l[0]
  {
    assert l == [l[0]] + l[1..];
  }

  lemma DistinctIn(s: State, x: SC.Policy, q: Queue)
    requires Inv(s) && Reached(s, x)
    ensures NoDup(ListIn(x, q))
  {
    AdoptedDistinct(s, x);
  }

  lemma WhereIs(s: State, x: SC.Policy, p: nat)
    requires Inv(s) && Reached(s, x)
    ensures forall q {:trigger ListIn(x, q)} :: PolicyList(q) ==> (p in ListIn(x, q) <==> QueueIn(x, p) == Some(q))
    ensures QueueIn(x, p).Some? ==> PolicyList(QueueIn(x, p).value)
  {
    hide QueueIn, ListIn, PolicyList;
    AdoptedQueue(s, x, p);
    QueueInIs(x, p);
  }

  lemma MoveQueue(s: State, x: SC.Policy, from: Queue, to: Queue, n: nat, clear: bool, q: nat)
    requires Inv(s) && Reached(s, x) && PolicyList(from) && PolicyList(to) && ListIn(x, from) != []
    ensures var p := ListIn(x, from)[0];
      QueueIn(MoveHead(x, from, to, n, clear), q) == if q == p then Some(to) else QueueIn(x, q)
  {
    hide Inv, Reached, QueueIn, ListIn, MoveHead, PolicyList;
    var l := ListIn(x, from);
    WhereIs(s, x, l[0]);
    WhereIs(s, x, q);
    DistinctIn(s, x, from);
    MoveShape(x, from, to, n, clear);
    InTail(l, q);
    assert l[0] in l;
    QueueInOf(MoveHead(x, from, to, n, clear), q, if q == l[0] then Some(to) else QueueIn(x, q));
  }

  lemma MovePages(x: SC.Policy, from: Queue, to: Queue, n: nat, clear: bool)
    requires PolicyList(from) && PolicyList(to) && ListIn(x, from) != []
    ensures var y := MoveHead(x, from, to, n, clear);
      SC.Pages(y) == SC.Pages(x) && y.accessed <= x.accessed
  {
    assert ListIn(x, from) == [ListIn(x, from)[0]] + ListIn(x, from)[1..];
  }

  lemma MoveReached(s: State, x: SC.Policy, from: Queue, to: Queue, n: nat, clear: bool)
    requires Inv(s) && Reached(s, x) && PolicyList(from) && PolicyList(to) && ListIn(x, from) != []
    ensures Reached(s, MoveHead(x, from, to, n, clear))
  {
    hide SC.Pages, Inv, QueueIn;
    var y := MoveHead(x, from, to, n, clear);
    MovePages(x, from, to, n, clear);
    forall q | q in s.desc && QueueIn(y, q) == None ensures SC.Count(y, q) == s.desc[q].naccesses {
      MoveQueue(s, x, from, to, n, clear, q);
    }
  }

  lemma MoveLists(s: State, x: SC.Policy, from: Queue, to: Queue, n: nat, clear: bool)
    requires PolicyList(from) && PolicyList(to) && ListIn(x, from) != [] && ListIn(x, from)[0] in s.desc
    ensures var p := ListIn(x, from)[0];
      MovePage(Adopt(s, x), from, to, p, n, clear).lists == Adopt(s, MoveHead(x, from, to, n, clear)).lists
  {}

  lemma MovePageFields(t: State, from: Queue, to: Queue, p: nat, n: nat, clear: bool)
    requires p in t.desc
    ensures var u := MovePage(t, from, to, p, n, clear);
      && u.desc == t.desc[p := t.desc[p].(naccesses := n, list := Some(to))]
      && u.mem == (if clear then t.mem.(accessed := t.mem.accessed - {t.desc[p].va}) else t.mem)
      && u == t.(desc := u.desc, lists := u.lists, mem := u.mem)
  {}

  lemma AdoptFields(s: State, x: SC.Policy, q: nat)
    requires q in s.desc
    ensures q in Adopt(s, x).desc
    ensures Adopt(s, x).desc[q] ==
      if QueueIn(x, q).Some? then s.desc[q].(list := QueueIn(x, q), naccesses := SC.Count(x, q)) else s.desc[q]
  {}

  lemma MoveCount(x: SC.Policy, from: Queue, to: Queue, n: nat, clear: bool, q: nat)
    requires PolicyList(from) && PolicyList(to) && ListIn(x, from) != []
    ensures SC.Count(MoveHead(x, from, to, n, clear), q) == if q == ListIn(x, from)[0] then n else SC.Count(x, q)
  {}

  lemma MoveDesc(s: State, x: SC.Policy, from: Queue, to: Queue, n: nat, clear: bool)
    requires Inv(s) && Reached(s, x) && PolicyList(from) && PolicyList(to) && ListIn(x, from) != []
    requires ListIn(x, from)[0] in s.desc
    ensures var p := ListIn(x, from)[0];
      MovePage(Adopt(s, x), from, to, p, n, clear).desc == Adopt(s, MoveHead(x, from, to, n, clear)).desc
  {
    hide Inv, Reached, QueueIn, MovePage, MoveHead, ListIn, PolicyList, AdoptDesc, Adopt, SC.Count;
    var (p, y) := (ListIn(x, from)[0], MoveHead(x, from, to, n, clear));
    AdoptFields(s, x, p);
    MovePageFields(Adopt(s, x), from, to, p, n, clear);
    var (t, u) := (MovePage(Adopt(s, x), from, to, p, n, clear), Adopt(s, y));
    HeadFacts(s, x, from);
    AdoptKeys(s, x);
    AdoptKeys(s, y);
    forall q | q in s.desc ensures t.desc[q] == u.desc[q] {
      MoveQueue(s, x, from, to, n, clear, q);
      MoveCount(x, from, to, n, clear, q);
      AdoptFields(s, x, q);
      AdoptFields(s, y, q);
    }
  }

  lemma AdoptKeys(s: State, x: SC.Policy)
    ensures Adopt(s, x).desc.Keys == s.desc.Keys
  {}

  lemma MoveMemory(s: State, x: SC.Policy, from: Queue, to: Queue, n: nat, clear: bool)
    requires Inv(s) && Reached(s, x) && PolicyList(from) && PolicyList(to) && ListIn(x, from) != []
    requires ListIn(x, from)[0] in s.desc
    ensures var p := ListIn(x, from)[0];
      MovePage(Adopt(s, x), from, to, p, n, clear).mem == Adopt(s, MoveHead(x, from, to, n, clear)).mem
  {
    hide Inv, Reached, QueueIn, MovePage, MoveHead, ListIn, PolicyList;
    HeadFacts(s, x, from);
    var (p, y) := (ListIn(x, from)[0], MoveHead(x, from, to, n, clear));
    MovePageFields(Adopt(s, x), from, to, p, n, clear);
    MoveShape(x, from, to, n, clear);
    var (t, u) := (MovePage(Adopt(s, x), from, to, p, n, clear), Adopt(s, y));
    assert t.mem.accessed == u.mem.accessed;
  }

  /** Moving the page is what the policy says. */
  lemma MoveIs(s: State, x: SC.Policy, from: Queue, to: Queue, n: nat, clear: bool)
    requires Inv(s) && Reached(s, x) && PolicyList(from) && PolicyList(to) && ListIn(x, from) != []
    ensures ListIn(x, from)[0] in s.desc
    ensures MovePage(Adopt(s, x), from, to, ListIn(x, from)[0], n, clear) == Adopt(s, MoveHead(x, from, to, n, clear))
    ensures Reached(s, MoveHead(x, from, to, n, clear))
  {
    hide Inv, QueueIn, Reached, ListIn, MoveHead, MovePage;
    HeadFacts(s, x, from);
    MovePageFields(Adopt(s, x), from, to, ListIn(x, from)[0], n, clear);
    MoveLists(s, x, from, to, n, clear);
    MoveDesc(s, x, from, to, n, clear);
    MoveMemory(s, x, from, to, n, clear);
    MoveReached(s, x, from, to, n, clear);
  }

  lemma InspectIs(x: SC.Policy)
    requires x.inactive != []
    ensures var p := x.inactive[0];
      SC.Inspect(x) ==
        if p !in x.accessed then MoveHead(x, Inactive, Eviction, 0, false)
        else if SC.Count(x, p) + 1 > 1 then MoveHead(x, Inactive, Active, 0, true)
        else MoveHead(x, Inactive, Inactive, SC.Count(x, p) + 1, true)
  {}

  lemma DemoteIs(x: SC.Policy)
    requires x.active != []
    ensures SC.Demote(x) == MoveHead(x, Active, Inactive, 0, false)
  {}

  /** `g` stands where the policy `x` has led from `s`. */
  ghost predicate Follows(g: P.Pager, s: State, x: SC.Policy)
    reads g
  {
    Inv(s) && Reached(s, x) && g.state == Adopt(s, x)
  }

  lemma MoveTwice(t: State, from: Queue, to: Queue, p: nat, m: nat, n: nat)
    requires p in t.desc
    ensures var u := Detach(t, from, p);
      var v := SetDesc(u, p, u.desc[p].(naccesses := m));
      var w := v.(mem := v.mem.(accessed := v.mem.accessed - {t.desc[p].va}));
      && Enqueue(SetDesc(w, p, w.desc[p].(naccesses := n)), to, p) == MovePage(t, from, to, p, n, true)
      && Enqueue(w, to, p) == MovePage(t, from, to, p, m, true)
  {
    var u := Detach(t, from, p);
    assert u.desc[p := u.desc[p].(naccesses := m)][p := u.desc[p].(naccesses := n)] == u.desc[p := u.desc[p].(naccesses := n)];
  }

  /** The page is stamped and its accessed bit cleared. */
  method Stamp(g: P.Pager, page: UserPage, n: nat)
    requires g.Valid() && g.Known(page)
    modifies g.Repr()
    ensures g.Valid() && g.pages == old(g.pages) && page.addr in old(g.state.desc)
    ensures var (u, p) := (old(g.state), page.addr);
      var v := SetDesc(u, p, u.desc[p].(naccesses := n));
      g.state == v.(mem := v.mem.(accessed := v.mem.accessed - {u.desc[p].va}))
  {
    hide P.Pager.Valid;
    g.SetAccesses(page, n);
    g.Look(page);
    g.MemoryIs();
    g.SetMemory(g.memory.(accessed := g.memory.accessed - {page.va}));
  }

  /** The body of the scan's loop: the oldest inactive page is looked at. */
  method InspectPage(g: P.Pager, ghost s: State, ghost x: SC.Policy) returns (evicted: bool)
    requires g.Valid() && Follows(g, s, x) && x.inactive != []
    modifies g.Repr()
    ensures g.Valid() && g.pages == old(g.pages) && Follows(g, s, SC.Inspect(x))
    ensures evicted <==> x.inactive[0] !in x.accessed
  {
    hide P.Pager.Valid, Inv, Reached, Adopt, MovePage, MoveHead, SC.Inspect;
    InspectSetup(s, x);
    ghost var t := g.state;
    var page := g.Dequeue(Inactive);
    g.Look(page);
    g.MemoryIs();
    evicted := page.va !in g.memory.accessed;
    InspectIs(x);
    if evicted {
      ColdIs(s, x);
      g.SetAccesses(page, 0);
      g.Look(page);
      g.Enqueue(Eviction, page);
    } else {
      HotOrWarmIs(s, x);
      Stamp(g, page, page.naccesses + 1);
      g.Look(page);
      if page.naccesses > 1 {
        g.SetAccesses(page, 0);
        g.Look(page);
        g.Enqueue(Active, page);
      } else {
        g.Enqueue(Inactive, page);
      }
    }
  }

  lemma ColdIs(s: State, x: SC.Policy)
    requires Inv(s) && Reached(s, x) && x.inactive != []
    ensures var (t, p) := (Adopt(s, x), x.inactive[0]);
      p in t.desc && var u := Detach(t, Inactive, p);
      Enqueue(SetDesc(u, p, u.desc[p].(naccesses := 0)), Eviction, p) == Adopt(s, MoveHead(x, Inactive, Eviction, 0, false))
    ensures Reached(s, MoveHead(x, Inactive, Eviction, 0, false))
  {
    hide Inv, Reached, Adopt;
    AdoptKeys(s, x);
    MoveIs(s, x, Inactive, Eviction, 0, false);
  }

  lemma HotOrWarmIs(s: State, x: SC.Policy)
    requires Inv(s) && Reached(s, x) && x.inactive != []
    ensures var (t, p, m) := (Adopt(s, x), x.inactive[0], SC.Count(x, x.inactive[0]) + 1);
      p in t.desc && var u := Detach(t, Inactive, p);
      var v := SetDesc(u, p, u.desc[p].(naccesses := m));
      var w := v.(mem := v.mem.(accessed := v.mem.accessed - {t.desc[p].va}));
      && Enqueue(SetDesc(w, p, w.desc[p].(naccesses := 0)), Active, p) == Adopt(s, MoveHead(x, Inactive, Active, 0, true))
      && Enqueue(w, Inactive, p) == Adopt(s, MoveHead(x, Inactive, Inactive, m, true))
    ensures Reached(s, MoveHead(x, Inactive, Active, 0, true))
    ensures Reached(s, MoveHead(x, Inactive, Inactive, SC.Count(x, x.inactive[0]) + 1, true))
  {
    hide Inv, Reached, Adopt, MovePage, MoveHead;
    var (p, m) := (x.inactive[0], SC.Count(x, x.inactive[0]) + 1);
    AdoptKeys(s, x);
    MoveIs(s, x, Inactive, Active, 0, true);
    MoveIs(s, x, Inactive, Inactive, m, true);
    MoveTwice(Adopt(s, x), Inactive, Active, p, m, 0);
    MoveTwice(Adopt(s, x), Inactive, Inactive, p, m, 0);
  }

  lemma InspectSetup(s: State, x: SC.Policy)
    requires Inv(s) && Reached(s, x) && x.inactive != []
    ensures Adopt(s, x).lists.inactive == x.inactive
    ensures var (t, p) := (Adopt(s, x), x.inactive[0]);
      p in t.desc && (t.desc[p].va in t.mem.accessed <==> p in x.accessed) && t.desc[p].naccesses == SC.Count(x, p)
  {
    HeadFacts(s, x, Inactive);
  }

  lemma ListsOf(s: State, x: SC.Policy)
    ensures Adopt(s, x).lists.active == x.active && Adopt(s, x).lists.inactive == x.inactive
    ensures Adopt(s, x).lists.eviction == x.eviction
  {}

  method ShrinkInactiveList(g: P.Pager, nr: nat, ghost s: State, ghost x: SC.Policy) returns (ret: nat)
    requires g.Valid() && Follows(g, s, x)
    modifies g.Repr()
    ensures g.Valid() && g.pages == old(g.pages)
    ensures Follows(g, s, SC.ShrinkInactive(x, nr).policy) && ret == SC.ShrinkInactive(x, nr).count
  {
    hide P.Pager.Valid, Inv, Reached, Adopt, SC.Inspect;
    g.Entries(Inactive);
    ListsOf(s, x);
    var want := nr;
    if nr == 0 || nr > g.inactiveList.numentries {
      want := g.inactiveList.numentries;
    }
    var tries := 0;
    ret := 0;
    ghost var y := x;
    while ret < want && g.inactiveList.numentries > 0 && tries < want * 100
      invariant g.Valid() && g.pages == old(g.pages) && Follows(g, s, y)
      invariant tries <= want * 100 && SC.ScanFrom(y, want, ret, tries) == SC.ShrinkInactive(x, nr)
      decreases want * 100 - tries
    {
      g.Entries(Inactive);
      ListsOf(s, y);
      var evicted := InspectPage(g, s, y);
      if evicted {
        ret := ret + 1;
      }
      tries := tries + 1;
      y := SC.Inspect(y);
    }
    g.Entries(Inactive);
    ListsOf(s, y);
  }

  method ShrinkActiveList(g: P.Pager, nr: nat, ghost s: State, ghost x: SC.Policy) returns (ret: nat)
    requires g.Valid() && Follows(g, s, x)
    modifies g.Repr()
    ensures g.Valid() && g.pages == old(g.pages)
    ensures Follows(g, s, SC.ShrinkActive(x, nr).policy) && ret == SC.ShrinkActive(x, nr).count
  {
    hide P.Pager.Valid, Inv, Reached, Adopt, SC.Demote;
    if nr == 0 {
      return 0;
    }
    g.Entries(Active);
    ListsOf(s, x);
    var want := nr;
    if nr > g.activeList.numentries {
      want := g.activeList.numentries;
    }
    var tries := 0;
    ret := 0;
    ghost var y := x;
    while ret < want && g.activeList.numentries > 0 && tries < want * 100
      invariant g.Valid() && g.pages == old(g.pages) && Follows(g, s, y)
      invariant tries <= want * 100 && SC.DemoteFrom(y, want, ret, tries) == SC.ShrinkActive(x, nr)
      decreases want * 100 - tries
    {
      g.Entries(Active);
      ListsOf(s, y);
      DemotePage(g, s, y);
      ret := ret + 1;
      tries := tries + 1;
      y := SC.Demote(y);
    }
    g.Entries(Active);
    ListsOf(s, y);
  }

  /** The body of that loop: the oldest active page goes back to the inactive list. */
  method DemotePage(g: P.Pager, ghost s: State, ghost x: SC.Policy)
    requires g.Valid() && Follows(g, s, x) && x.active != []
    modifies g.Repr()
    ensures g.Valid() && g.pages == old(g.pages) && Follows(g, s, SC.Demote(x))
  {
    hide P.Pager.Valid, Inv, Reached, Adopt, MovePage, MoveHead, SC.Demote;
    ListsOf(s, x);
    CoolIs(s, x);
    DemoteIs(x);
    var page := g.Dequeue(Active);
    g.SetAccesses(page, 0);
    g.Look(page);
    g.Enqueue(Inactive, page);
  }

  lemma CoolIs(s: State, x: SC.Policy)
    requires Inv(s) && Reached(s, x) && x.active != []
    ensures var (t, p) := (Adopt(s, x), x.active[0]);
      p in t.desc && var u := Detach(t, Active, p);
      Enqueue(SetDesc(u, p, u.desc[p].(naccesses := 0)), Inactive, p) == Adopt(s, MoveHead(x, Active, Inactive, 0, false))
    ensures Reached(s, MoveHead(x, Active, Inactive, 0, false))
  {
    hide Inv, Reached, Adopt;
    AdoptKeys(s, x);
    MoveIs(s, x, Active, Inactive, 0, false);
  }

  /** `direct_allocate_page_asynch`. */
  method DirectAllocate(g: P.Pager, nr: nat, priority: nat) returns (reclaimed: nat)
    requires g.Valid() && Inv(g.state)
    modifies g.Repr()
    ensures g.Valid() && g.pages == old(g.pages)
    ensures var r := SC.Reclaim(PolicyOf(old(g.state)), nr, priority);
      g.state == Adopt(old(g.state), r.policy) && reclaimed == r.count
  {
    hide P.Pager.Valid, Inv, Reached, Adopt, SC.ShrinkInactive, SC.ShrinkActive;
    ghost var s := g.state;
    ghost var x := PolicyOf(s);
    ghost var y := x;
    ReachedStart(s);
    g.Entries(Active);
    g.Entries(Inactive);
    var toScanActive := ShiftRight(g.activeList.numentries, priority);
    var toScanInactive := ShiftRight(g.inactiveList.numentries, priority);
    var scannedActive: nat, scannedInactive: nat := 0, 0;
    reclaimed := 0;
    while scannedInactive < toScanInactive && reclaimed < nr
      invariant g.Valid() && g.pages == old(g.pages) && Follows(g, s, y)
      invariant SC.ReclaimFrom(y, nr, toScanInactive, toScanActive, scannedInactive, scannedActive, reclaimed)
             == SC.Reclaim(x, nr, priority)
      decreases toScanInactive - scannedInactive
    {
      ghost var cool := scannedActive < toScanActive;
      ghost var scan := SC.ShrinkInactive(y, SC.SWAP_CLUSTER_COUNT);
      var n := ShrinkInactiveList(g, SC.SWAP_CLUSTER_COUNT, s, y);
      reclaimed := reclaimed + n;
      scannedInactive := scannedInactive + SC.SWAP_CLUSTER_COUNT;
      if scannedActive < toScanActive {
        var m := ShrinkActiveList(g, SC.SWAP_CLUSTER_COUNT, s, scan.policy);
        scannedActive := scannedActive + SC.SWAP_CLUSTER_COUNT;
      }
      y := SC.ReclaimRound(y, cool).policy;
    }
  }
}
