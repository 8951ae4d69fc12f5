/** The policy's decisions carried out on the descriptors. */
module Reclaim {
  import opened Machine
  import SC = SecondChance

  ghost function PolicyOf(s: State): SC.Policy {
    SC.Policy(s.lists.active, s.lists.inactive, s.lists.eviction,
              set p | p in s.desc && s.desc[p].va in s.mem.accessed,
              map p | p in s.desc :: s.desc[p].naccesses)
  }

  /** The list on which a policy keeps `p`, if any. */
  function QueueIn(x: SC.Policy, p: nat): Option<Queue> {
    if p in x.active then Some(Active)
    else if p in x.inactive then Some(Inactive)
    else if p in x.eviction then Some(Eviction)
    else None
  }

  ghost function AdoptDesc(d: Desc, x: SC.Policy, p: nat): Desc {
    if QueueIn(x, p).Some? then d.(list := QueueIn(x, p), naccesses := SC.Count(x, p)) else d
  }

  /** The machine after the policy has moved its pages as `x` says. */
  ghost function Adopt(s: State, x: SC.Policy): (t: State) {
    s.(desc := map p | p in s.desc :: AdoptDesc(s.desc[p], x, p),
       lists := s.lists.(active := x.active, inactive := x.inactive, eviction := x.eviction),
       mem := s.mem.(accessed := set va | va in s.mem.accessed && va in s.index && s.index[va] in x.accessed))
  }

  // ----- the policy's pages are the machine's -----

  lemma {:induction false} MultisetOfDistinct(l: seq<nat>)
    requires NoDup(l)
    ensures forall p :: multiset(l)[p] == if p in l then 1 else 0
  {
    if l != [] {
      MultisetOfDistinct(l[1..]);
      assert l == [l[0]] + l[1..];
    }
  }

  lemma {:induction false} DistinctOfMultiset(l: seq<nat>)
    requires forall p :: multiset(l)[p] <= 1
    ensures NoDup(l)
  {
    if l != [] {
      assert l == [l[0]] + l[1..];
      forall p: nat ensures multiset(l[1..])[p] + (if p == l[0] then 1 else 0) <= 1 {
        assert multiset(l)[p] == multiset([l[0]])[p] + multiset(l[1..])[p];
      }
      DistinctOfMultiset(l[1..]);
      assert multiset(l[1..])[l[0]] == 0;
    }
  }

  /** No page is on two policy lists, or twice on one. */
  lemma PagesOnce(s: State, p: nat)
    requires ListsOk(s)
    ensures SC.Pages(PolicyOf(s))[p] ==
      if p in s.desc && s.desc[p].list in {Some(Active), Some(Inactive), Some(Eviction)} then 1 else 0
  {
    assert NoDup(s.lists.Get(Active)) && NoDup(s.lists.Get(Inactive)) && NoDup(s.lists.Get(Eviction));
    MultisetOfDistinct(s.lists.active);
    MultisetOfDistinct(s.lists.inactive);
    MultisetOfDistinct(s.lists.eviction);
    assert p in s.lists.Get(Active) ==> p in s.desc && s.desc[p].list == Some(Active);
    assert p in s.lists.Get(Inactive) ==> p in s.desc && s.desc[p].list == Some(Inactive);
    assert p in s.lists.Get(Eviction) ==> p in s.desc && s.desc[p].list == Some(Eviction);
    if p in s.desc {
      assert Linked(s, p);
    }
  }

  ghost predicate Rearranged(s: State, x: SC.Policy) {
    SC.Pages(x) == SC.Pages(PolicyOf(s)) && x.accessed <= PolicyOf(s).accessed
  }

  lemma AdoptedQueue(s: State, x: SC.Policy, p: nat)
    requires ListsOk(s) && Rearranged(s, x)
    ensures QueueIn(x, p).Some? <==> p in s.desc && s.desc[p].list in {Some(Active), Some(Inactive), Some(Eviction)}
    ensures p in x.active ==> p !in x.inactive && p !in x.eviction
    ensures p in x.inactive ==> p !in x.eviction
  {
    PagesOnce(s, p);
    assert SC.Pages(x)[p] == multiset(x.active)[p] + multiset(x.inactive)[p] + multiset(x.eviction)[p];
  }

  lemma AdoptedDistinct(s: State, x: SC.Policy)
    requires ListsOk(s) && Rearranged(s, x)
    ensures NoDup(x.active) && NoDup(x.inactive) && NoDup(x.eviction)
  {
    forall p: nat
      ensures multiset(x.active)[p] <= 1 && multiset(x.inactive)[p] <= 1 && multiset(x.eviction)[p] <= 1
    {
      PagesOnce(s, p);
      assert SC.Pages(x)[p] == multiset(x.active)[p] + multiset(x.inactive)[p] + multiset(x.eviction)[p];
    }
    DistinctOfMultiset(x.active);
    DistinctOfMultiset(x.inactive);
    DistinctOfMultiset(x.eviction);
  }

  lemma AdoptLists(s: State, x: SC.Policy)
    requires ListsOk(s) && Rearranged(s, x)
    ensures ListsOk(Adopt(s, x))
  {
    hide SC.Pages, Rearranged;
    var t := Adopt(s, x);
    AdoptedDistinct(s, x);
    forall q: Queue ensures NoDup(t.lists.Get(q)) {
      assert NoDup(s.lists.Get(q));
    }
    forall q: Queue, p: nat | p in t.lists.Get(q) ensures p in t.desc && t.desc[p].list == Some(q) {
      AdoptedQueue(s, x, p);
      assert p in s.lists.Get(q) ==> p in s.desc && s.desc[p].list == Some(q);
    }
    forall p | p in t.desc ensures Linked(t, p) {
      AdoptedQueue(s, x, p);
      assert Linked(s, p);
    }
  }

  lemma AdoptRoles(s: State, x: SC.Policy)
    requires ListsOk(s) && RolesOk(s) && Rearranged(s, x)
    ensures RolesOk(Adopt(s, x)) && KeepsLoans(s, Adopt(s, x))
  {
    hide SC.Pages, Rearranged;
    var t := Adopt(s, x);
    forall p | p in t.desc ensures RoleOk(t.desc[p]) && (s.desc[p].list == None ==> t.desc[p] == s.desc[p]) {
      AdoptedQueue(s, x, p);
      assert RoleOk(s.desc[p]);
    }
  }

  lemma AdoptFields(s: State, x: SC.Policy, p: nat)
    requires p in s.desc
    ensures p in Adopt(s, x).desc
    ensures var d := Adopt(s, x).desc[p]; d == s.desc[p].(naccesses := d.naccesses, list := d.list)
  {}

  lemma AdoptRest(s: State, x: SC.Policy)
    ensures var t := Adopt(s, x);
      && t == s.(desc := t.desc, lists := t.lists, mem := s.mem.(accessed := t.mem.accessed))
      && t.desc.Keys == s.desc.Keys && t.mem.accessed <= s.mem.accessed
  {
    hide AdoptDesc, QueueIn;
  }

  lemma AdoptSamePages(s: State, x: SC.Policy)
    ensures SamePages(s, Adopt(s, x))
  {
    hide Adopt;
    var t := Adopt(s, x);
    AdoptRest(s, x);
    forall p {:trigger t.desc[p]} | p in s.desc
      ensures t.desc[p] == s.desc[p].(naccesses := t.desc[p].naccesses, list := t.desc[p].list)
    {
      AdoptFields(s, x, p);
    }
  }

  /** The policy's own view changes nothing. */
  lemma AdoptSelf(s: State)
    requires Inv(s)
    ensures Adopt(s, PolicyOf(s)) == s
  {
    var (x, t) := (PolicyOf(s), Adopt(s, PolicyOf(s)));
    hide MemoryOk, IndexOk, PlacesOk, PairsOk, RolesOk;
    forall p | p in s.desc ensures t.desc[p] == s.desc[p] {
      SelfQueue(s, p);
    }
    assert t.desc == s.desc;
    forall va | va in s.mem.accessed ensures va in t.mem.accessed { SelfAccessed(s, va); }
    assert t.mem.accessed == s.mem.accessed;
  }

  lemma SelfQueue(s: State, p: nat)
    requires ListsOk(s) && p in s.desc
    ensures var q := QueueIn(PolicyOf(s), p); q.Some? ==> q == s.desc[p].list
  {
    assert p in s.lists.Get(Active) ==> s.desc[p].list == Some(Active);
    assert p in s.lists.Get(Inactive) ==> s.desc[p].list == Some(Inactive);
    assert p in s.lists.Get(Eviction) ==> s.desc[p].list == Some(Eviction);
  }

  lemma SelfAccessed(s: State, va: nat)
    requires Inv(s) && va in s.mem.accessed
    ensures va in s.index && s.index[va] in PolicyOf(s).accessed
  {
    assert Mapped(s, va) && Indexed(s, va);
  }

  /** The policy's work is invisible and keeps the invariant. */
  lemma AdoptKeeps(s: State, x: SC.Policy)
    requires Inv(s) && Rearranged(s, x)
    ensures Inv(Adopt(s, x)) && Invisible(s, Adopt(s, x))
  {
    hide Adopt, Rearranged, SamePages;
    var t := Adopt(s, x);
    AdoptLists(s, x);
    AdoptRoles(s, x);
    AdoptSamePages(s, x);
    SamePagesPlaces(s, t);
    SamePagesPairs(s, t);
    SamePagesIndex(s, t);
    SamePagesMemory(s, t);
    SamePagesUser(s, t);
  }

  // ----- the inactive scan on the machine -----

  /** The inactive pages with their accessed bit set and counted before. */
  ghost predicate HotPage(s: State, p: nat) {
    p in s.desc && s.desc[p].va in s.mem.accessed && s.desc[p].naccesses >= 1
  }

  ghost function HotPages(s: State, l: seq<nat>): nat {
    if l == [] then 0 else (if HotPage(s, l[0]) then 1 else 0) + HotPages(s, l[1..])
  }

  lemma {:induction false} HotIsHot(s: State, l: seq<nat>)
    requires forall p :: p in l ==> p in s.desc
    ensures |SC.Hot(PolicyOf(s), l)| == HotPages(s, l)
  {
    if l != [] {
      HotIsHot(s, l[1..]);
    }
  }

  lemma InactiveScan(s: State)
    requires ListsOk(s)
    ensures NoDup(s.lists.inactive) && forall p :: p in s.lists.inactive ==> p in s.desc
  {
    assert s.lists.inactive == s.lists.Get(Inactive);
  }

  /** What `shrink_inactive_list` does to a machine whose program rests: of n
      inactive pages, h of them hot, it evicts min(r, n - h), and none that was
      accessed since it was last looked at. */
  lemma MachineScanIsExact(s: State, nr: nat)
    requires Inv(s) && 2 * |s.lists.inactive| <= 100 * SC.Clamp(nr, |s.lists.inactive|)
    ensures HotPages(s, s.lists.inactive) <= |s.lists.inactive|
    ensures var (n, r) := (|s.lists.inactive|, SC.ShrinkInactive(PolicyOf(s), nr));
      var t := Adopt(s, r.policy);
      && r.count == SC.Min(SC.Clamp(nr, n), n - HotPages(s, s.lists.inactive))
      && s.lists.eviction <= t.lists.eviction && |t.lists.eviction| == |s.lists.eviction| + r.count
      && forall i :: |s.lists.eviction| <= i < |t.lists.eviction| ==> t.lists.eviction[i] !in r.policy.accessed
  {
    hide Inv, SC.ShrinkInactive, SC.Order, SC.Hot, HotPages;
    var x := PolicyOf(s);
    InvLists(s);
    InactiveScan(s);
    HotIsHot(s, s.lists.inactive);
    SC.SecondChanceIsExact(x, nr);
  }

  lemma InvLists(s: State)
    requires Inv(s)
    ensures ListsOk(s)
  {}
}
