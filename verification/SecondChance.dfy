/** The replacement policy as it sees the pages: three queues, the accessed bits
    and the access counts.  Everything the reclaim code decides is decided here. */
module SecondChance {
  import M = Machine

  const SWAP_CLUSTER_COUNT: nat := 32

  datatype Policy = Policy(
    active: seq<nat>,
    inactive: seq<nat>,
    eviction: seq<nat>,
    accessed: set<nat>,
    counts: map<nat, nat>)

  datatype Result = Result(policy: Policy, count: nat)

  function Min(a: nat, b: nat): nat {
    if a < b then a else b
  }

  function Count(s: Policy, p: nat): nat {
    if p in s.counts then s.counts[p] else 0
  }

  /** Accessed now and seen accessed before: the scan promotes it. */
  predicate IsHot(s: Policy, p: nat) {
    p in s.accessed && Count(s, p) >= 1
  }

  // ----- shrink_inactive_list -----

  /** The oldest inactive page is looked at and put where it belongs. */
  function Inspect(s: Policy): (t: Policy)
    requires s.inactive != []
  {
    var (p, rest) := (s.inactive[0], s.inactive[1..]);
    if p !in s.accessed then
      s.(inactive := rest, eviction := s.eviction + [p], counts := s.counts[p := 0])
    else if Count(s, p) + 1 > 1 then
      s.(inactive := rest, active := s.active + [p], accessed := s.accessed - {p}, counts := s.counts[p := 0])
    else
      s.(inactive := rest + [p], accessed := s.accessed - {p}, counts := s.counts[p := Count(s, p) + 1])
  }

  /** The loop, `ret` and `tries` being its counters. */
  function ScanFrom(s: Policy, nr: nat, ret: nat, tries: nat): (r: Result)
    decreases nr * 100 - tries
  {
    if ret < nr && s.inactive != [] && tries < nr * 100 then
      ScanFrom(Inspect(s), nr, if s.inactive[0] in s.accessed then ret else ret + 1, tries + 1)
    else Result(s, ret)
  }

  function Clamp(nr: nat, n: nat): nat {
    if nr == 0 || nr > n then n else nr
  }

  function ShrinkInactive(s: Policy, nr: nat): (r: Result) {
    ScanFrom(s, Clamp(nr, |s.inactive|), 0, 0)
  }

  // ----- what the scan amounts to -----

  lemma NoDupRotate(l: seq<nat>)
    requires M.NoDup(l) && l != []
    ensures l[0] !in l[1..] && M.NoDup(l[1..]) && M.NoDup(l[1..] + [l[0]])
  {}

  /** The pages of `l` found unaccessed. */
  function Cold(s: Policy, l: seq<nat>): seq<nat> {
    if l == [] then [] else (if l[0] in s.accessed then [] else [l[0]]) + Cold(s, l[1..])
  }

  /** The pages of `l` that get a second chance. */
  function Warm(s: Policy, l: seq<nat>): seq<nat> {
    if l == [] then []
    else (if l[0] in s.accessed && !IsHot(s, l[0]) then [l[0]] else []) + Warm(s, l[1..])
  }

  function Hot(s: Policy, l: seq<nat>): seq<nat> {
    if l == [] then [] else (if IsHot(s, l[0]) then [l[0]] else []) + Hot(s, l[1..])
  }

  /** First what was not accessed, oldest first, then what was accessed for the
      first time, oldest first. */
  function Order(s: Policy, l: seq<nat>): seq<nat> {
    Cold(s, l) + Warm(s, l)
  }

  lemma {:induction false} ClassesCard(s: Policy, l: seq<nat>)
    ensures |Cold(s, l)| + |Warm(s, l)| + |Hot(s, l)| == |l|
  {
    if l != [] {
      ClassesCard(s, l[1..]);
    }
  }

  lemma {:induction false} SameClasses(s: Policy, t: Policy, l: seq<nat>)
    requires forall p :: p in l ==> (p in s.accessed <==> p in t.accessed) && Count(s, p) == Count(t, p)
    ensures Cold(t, l) == Cold(s, l) && Warm(t, l) == Warm(s, l) && Hot(t, l) == Hot(s, l)
  {
    if l != [] {
      SameClasses(s, t, l[1..]);
    }
  }

  lemma {:induction false} ClassesAppend(s: Policy, l: seq<nat>, p: nat)
    requires p !in s.accessed
    ensures Cold(s, l + [p]) == Cold(s, l) + [p]
    ensures Warm(s, l + [p]) == Warm(s, l) && Hot(s, l + [p]) == Hot(s, l)
  {
    if l == [] {
      assert l + [p] == [p];
    } else {
      assert (l + [p])[1..] == l[1..] + [p];
      ClassesAppend(s, l[1..], p);
    }
  }

  lemma ClassesHead(s: Policy, l: seq<nat>)
    requires l != []
    ensures Cold(s, l) == (if l[0] in s.accessed then [] else [l[0]]) + Cold(s, l[1..])
    ensures Warm(s, l) == (if l[0] in s.accessed && !IsHot(s, l[0]) then [l[0]] else []) + Warm(s, l[1..])
    ensures Hot(s, l) == (if IsHot(s, l[0]) then [l[0]] else []) + Hot(s, l[1..])
  {}

  /** An inspection changes nothing for the pages that were not inspected. */
  lemma InspectOthers(s: Policy)
    requires M.NoDup(s.inactive) && s.inactive != []
    ensures var (t, rest) := (Inspect(s), s.inactive[1..]);
      Cold(t, rest) == Cold(s, rest) && Warm(t, rest) == Warm(s, rest) && Hot(t, rest) == Hot(s, rest)
  {
    NoDupRotate(s.inactive);
    SameClasses(s, Inspect(s), s.inactive[1..]);
  }

  lemma Regroup(a: seq<nat>, b: seq<nat>, c: seq<nat>)
    ensures a + (b + c) == a + b + c
  {}

  lemma InspectCold(s: Policy)
    requires M.NoDup(s.inactive) && s.inactive != [] && s.inactive[0] !in s.accessed
    ensures var (t, p) := (Inspect(s), s.inactive[0]);
      && Order(s, s.inactive) == [p] + Order(t, t.inactive)
      && Hot(s, s.inactive) == Hot(t, t.inactive)
      && |Warm(t, t.inactive)| == |Warm(s, s.inactive)|
  {
    hide Cold, Warm, Hot;
    var (p, rest) := (s.inactive[0], s.inactive[1..]);
    ClassesHead(s, s.inactive);
    InspectOthers(s);
    Regroup([p], Cold(s, rest), Warm(s, rest));
  }

  lemma InspectWarm(s: Policy)
    requires M.NoDup(s.inactive) && s.inactive != []
    requires s.inactive[0] in s.accessed && !IsHot(s, s.inactive[0])
    ensures var t := Inspect(s);
      && M.NoDup(t.inactive)
      && Order(s, s.inactive) == Order(t, t.inactive)
      && Hot(s, s.inactive) == Hot(t, t.inactive)
      && |Warm(t, t.inactive)| + 1 == |Warm(s, s.inactive)|
  {
    hide Cold, Warm, Hot;
    var (t, p, rest) := (Inspect(s), s.inactive[0], s.inactive[1..]);
    ClassesHead(s, s.inactive);
    InspectOthers(s);
    ClassesAppend(t, rest, p);
    NoDupRotate(s.inactive);
    Regroup(Cold(s, rest), [p], Warm(s, rest));
  }

  lemma InspectHot(s: Policy)
    requires M.NoDup(s.inactive) && s.inactive != [] && IsHot(s, s.inactive[0])
    ensures var (t, p) := (Inspect(s), s.inactive[0]);
      && Order(s, s.inactive) == Order(t, t.inactive)
      && Hot(s, s.inactive) == [p] + Hot(t, t.inactive)
      && |Warm(t, t.inactive)| == |Warm(s, s.inactive)|
  {
    hide Cold, Warm, Hot;
    ClassesHead(s, s.inactive);
    InspectOthers(s);
  }

  /** One inspection takes the first page off the eviction order or leaves the
      order alone, and one unit off the work ahead. */
  lemma InspectOrder(s: Policy)
    requires M.NoDup(s.inactive) && s.inactive != []
    ensures var (t, p) := (Inspect(s), s.inactive[0]);
      && M.NoDup(t.inactive)
      && Order(s, s.inactive) == (if p in s.accessed then [] else [p]) + Order(t, t.inactive)
      && Hot(s, s.inactive) == (if IsHot(s, p) then [p] else []) + Hot(t, t.inactive)
      && |t.inactive| + |Warm(t, t.inactive)| + 1 == |s.inactive| + |Warm(s, s.inactive)|
  {
    hide Cold, Warm, Hot, Order;
    NoDupRotate(s.inactive);
    if s.inactive[0] !in s.accessed {
      InspectCold(s);
    } else if IsHot(s, s.inactive[0]) {
      InspectHot(s);
    } else {
      InspectWarm(s);
    }
  }

  /** `r` is what a scan of `s` must come to when `left` more pages are wanted:
      the first `left` pages of the eviction order go to the eviction list, and
      only hot pages are promoted, oldest first. */
  predicate Exact(s: Policy, left: nat, r: Result, ret: nat) {
    var (order, hot) := (Order(s, s.inactive), Hot(s, s.inactive));
    var k := Min(left, |order|);
    && r.count == ret + k
    && r.policy.eviction == s.eviction + order[..k]
    && s.active <= r.policy.active <= s.active + hot
    && (k < left ==> r.policy.inactive == [] && r.policy.active == s.active + hot)
  }

  lemma ExactCold(s: Policy, left: nat, r: Result, ret: nat)
    requires M.NoDup(s.inactive) && s.inactive != [] && s.inactive[0] !in s.accessed
    requires left > 0 && Exact(Inspect(s), left - 1, r, ret + 1)
    ensures Exact(s, left, r, ret)
  {
    hide Cold, Warm, Hot, Order;
    InspectCold(s);
    var (t, p) := (Inspect(s), s.inactive[0]);
    var order := Order(t, t.inactive);
    TakeOneMore(s.eviction, p, order, Min(left - 1, |order|));
  }

  lemma TakeOneMore(a: seq<nat>, p: nat, order: seq<nat>, k: nat)
    requires k <= |order|
    ensures a + ([p] + order)[..k + 1] == (a + [p]) + order[..k]
  {
    assert ([p] + order)[..k + 1] == [p] + order[..k];
  }

  lemma ExactStop(s: Policy, left: nat, ret: nat)
    requires left == 0 || s.inactive == []
    ensures Exact(s, left, Result(s, ret), ret)
  {}

  lemma ExactWarm(s: Policy, left: nat, r: Result, ret: nat)
    requires M.NoDup(s.inactive) && s.inactive != []
    requires s.inactive[0] in s.accessed && !IsHot(s, s.inactive[0])
    requires Exact(Inspect(s), left, r, ret)
    ensures Exact(s, left, r, ret)
  {
    hide Cold, Warm, Hot, Order;
    InspectWarm(s);
  }

  lemma PrefixLess(a: seq<nat>, p: nat, r: seq<nat>)
    requires a + [p] <= r
    ensures a <= r
  {
    assert a == (a + [p])[..|a|];
  }

  lemma ExactHot(s: Policy, left: nat, r: Result, ret: nat)
    requires M.NoDup(s.inactive) && s.inactive != [] && IsHot(s, s.inactive[0])
    requires Exact(Inspect(s), left, r, ret)
    ensures Exact(s, left, r, ret)
  {
    hide Cold, Warm, Hot, Order;
    InspectHot(s);
    var (t, p) := (Inspect(s), s.inactive[0]);
    Regroup(s.active, [p], Hot(t, t.inactive));
    PrefixLess(s.active, p, r.policy.active);
  }

  lemma {:induction false} ScanExact(s: Policy, nr: nat, ret: nat, tries: nat)
    requires M.NoDup(s.inactive) && ret <= nr
    requires |s.inactive| + |Warm(s, s.inactive)| + tries <= nr * 100
    ensures Exact(s, nr - ret, ScanFrom(s, nr, ret, tries), ret)
    decreases nr * 100 - tries
  {
    hide Cold, Warm, Hot, Order, Exact, Inspect;
    if ret == nr || s.inactive == [] {
      ExactStop(s, nr - ret, ret);
    } else {
      var (t, p) := (Inspect(s), s.inactive[0]);
      var ret' := if p in s.accessed then ret else ret + 1;
      assert tries < nr * 100;
      var r := ScanFrom(t, nr, ret', tries + 1);
      assert ScanFrom(s, nr, ret, tries) == r;
      InspectOrder(s);
      ScanExact(t, nr, ret', tries + 1);
      if p !in s.accessed {
        ExactCold(s, nr - ret, r, ret);
      } else if IsHot(s, p) {
        ExactHot(s, nr - ret, r, ret);
      } else {
        ExactWarm(s, nr - ret, r, ret);
      }
    }
  }

  /** The scan only clears accessed bits, and a page it evicts was found unaccessed
      when it was last looked at. */
  lemma {:induction false} EvictedUnaccessed(s: Policy, nr: nat, ret: nat, tries: nat)
    ensures var t := ScanFrom(s, nr, ret, tries).policy;
      && t.accessed <= s.accessed && s.eviction <= t.eviction
      && forall i :: |s.eviction| <= i < |t.eviction| ==> t.eviction[i] !in t.accessed
    decreases nr * 100 - tries
  {
    if ret < nr && s.inactive != [] && tries < nr * 100 {
      var t := Inspect(s);
      EvictedUnaccessed(t, nr, if s.inactive[0] in s.accessed then ret else ret + 1, tries + 1);
      assert t.eviction == s.eviction || t.eviction == s.eviction + [s.inactive[0]];
    }
  }

  /** With no accesses during the scan and 2n <= 100r, the scan evicts exactly
      min(r, n - h) pages, in the order cold-then-warm, each unaccessed when it was
      last looked at; what it promotes is hot and taken oldest first. */
  lemma SecondChanceIsExact(s: Policy, nr: nat)
    requires M.NoDup(s.inactive)
    requires 2 * |s.inactive| <= 100 * Clamp(nr, |s.inactive|)
    ensures |Order(s, s.inactive)| == |s.inactive| - |Hot(s, s.inactive)|
    ensures var (t, order, hot) := (ShrinkInactive(s, nr), Order(s, s.inactive), Hot(s, s.inactive));
      && t.count == Min(Clamp(nr, |s.inactive|), |order|)
      && t.policy.eviction == s.eviction + order[..t.count]
      && s.active <= t.policy.active <= s.active + hot
      && forall i :: |s.eviction| <= i < |t.policy.eviction| ==> t.policy.eviction[i] !in t.policy.accessed
  {
    EvictedUnaccessed(s, Clamp(nr, |s.inactive|), 0, 0);
    ClassesCard(s, s.inactive);
    ScanExact(s, Clamp(nr, |s.inactive|), 0, 0);
  }

  // ----- shrink_active_list -----

  function Demote(s: Policy): (t: Policy)
    requires s.active != []
  {
    var p := s.active[0];
    s.(active := s.active[1..], inactive := s.inactive + [p], counts := s.counts[p := 0])
  }

  function DemoteFrom(s: Policy, nr: nat, ret: nat, tries: nat): (r: Result)
    decreases nr * 100 - tries
  {
    if ret < nr && s.active != [] && tries < nr * 100 then DemoteFrom(Demote(s), nr, ret + 1, tries + 1)
    else Result(s, ret)
  }

  function ShrinkActive(s: Policy, nr: nat): (r: Result) {
    if nr == 0 then Result(s, 0) else DemoteFrom(s, Min(nr, |s.active|), 0, 0)
  }

  /** The oldest active pages, as many as asked for, become the youngest inactive ones. */
  lemma {:induction false} DemoteExact(s: Policy, nr: nat, ret: nat)
    requires ret <= nr <= ret + |s.active|
    ensures var r := DemoteFrom(s, nr, ret, ret);
      && r.count == nr
      && r.policy.active == s.active[nr - ret..]
      && r.policy.inactive == s.inactive + s.active[..nr - ret]
      && r.policy.eviction == s.eviction && r.policy.accessed == s.accessed
    decreases nr - ret
  {
    if ret < nr {
      DemoteExact(Demote(s), nr, ret + 1);
      assert s.active[1..][..nr - ret - 1] == s.active[1..nr - ret];
      assert s.active[..nr - ret] == [s.active[0]] + s.active[1..nr - ret];
    }
  }

  lemma ShrinkActiveExact(s: Policy, nr: nat)
    ensures var (r, k) := (ShrinkActive(s, nr), Min(nr, |s.active|));
      && r.count == k
      && r.policy.active == s.active[k..]
      && r.policy.inactive == s.inactive + s.active[..k]
      && r.policy.eviction == s.eviction && r.policy.accessed == s.accessed
  {
    var k := Min(nr, |s.active|);
    if nr == 0 {
      assert s.active[k..] == s.active && s.inactive + s.active[..k] == s.inactive;
    } else {
      DemoteExact(s, k, 0);
    }
  }

  // ----- direct_allocate_page_asynch -----

  /** One round: a cluster of inactive pages, and sometimes a cluster of active ones. */
  function ReclaimRound(s: Policy, cool: bool): (r: Result) {
    var scan := ShrinkInactive(s, SWAP_CLUSTER_COUNT);
    Result(if cool then ShrinkActive(scan.policy, SWAP_CLUSTER_COUNT).policy else scan.policy, scan.count)
  }

  function ReclaimFrom(s: Policy, nr: nat, toInactive: nat, toActive: nat,
                       doneInactive: nat, doneActive: nat, reclaimed: nat): (r: Result)
    decreases toInactive - doneInactive
  {
    if doneInactive < toInactive && reclaimed < nr then
      var round := ReclaimRound(s, doneActive < toActive);
      ReclaimFrom(round.policy, nr, toInactive, toActive, doneInactive + SWAP_CLUSTER_COUNT,
                  if doneActive < toActive then doneActive + SWAP_CLUSTER_COUNT else doneActive,
                  reclaimed + round.count)
    else Result(s, reclaimed)
  }

  function Reclaim(s: Policy, nr: nat, priority: nat): (r: Result) {
    ReclaimFrom(s, nr, M.ShiftRight(|s.inactive|, priority), M.ShiftRight(|s.active|, priority), 0, 0, 0)
  }

  // ----- conservation and the watermark -----

  ghost function Pages(s: Policy): multiset<nat> {
    multiset(s.active) + multiset(s.inactive) + multiset(s.eviction)
  }

  /** `t` holds the pages of `s`; the eviction list only grew, by `k` pages. */
  ghost predicate Gives(s: Policy, t: Policy, k: nat) {
    && Pages(t) == Pages(s)
    && s.eviction <= t.eviction && |t.eviction| == |s.eviction| + k
    && t.accessed <= s.accessed
  }

  lemma GivesTrans(s: Policy, t: Policy, u: Policy, j: nat, k: nat)
    requires Gives(s, t, j) && Gives(t, u, k)
    ensures Gives(s, u, j + k)
  {
    assert t.eviction == s.eviction + t.eviction[|s.eviction|..];
  }

  lemma InspectGives(s: Policy)
    requires s.inactive != []
    ensures Gives(s, Inspect(s), if s.inactive[0] in s.accessed then 0 else 1)
  {
    assert s.inactive == [s.inactive[0]] + s.inactive[1..];
  }

  lemma {:induction false} ScanGives(s: Policy, nr: nat, ret: nat, tries: nat)
    requires ret <= nr
    ensures var r := ScanFrom(s, nr, ret, tries);
      ret <= r.count <= nr && Gives(s, r.policy, r.count - ret)
    decreases nr * 100 - tries
  {
    hide Gives, Inspect;
    GivesRefl(s);
    if ret < nr && s.inactive != [] && tries < nr * 100 {
      var (t, k) := (Inspect(s), if s.inactive[0] in s.accessed then 0 else 1);
      InspectGives(s);
      ScanGives(t, nr, ret + k, tries + 1);
      var r := ScanFrom(t, nr, ret + k, tries + 1);
      GivesTrans(s, t, r.policy, k, r.count - (ret + k));
    }
  }

  lemma ShrinkActiveGives(s: Policy, nr: nat)
    ensures Gives(s, ShrinkActive(s, nr).policy, 0)
  {
    var k := Min(nr, |s.active|);
    ShrinkActiveExact(s, nr);
    assert s.active == s.active[..k] + s.active[k..];
  }

  lemma RoundGives(s: Policy, cool: bool)
    ensures var r := ReclaimRound(s, cool);
      r.count <= SWAP_CLUSTER_COUNT && Gives(s, r.policy, r.count)
  {
    hide Gives, ShrinkActive;
    var scan := ShrinkInactive(s, SWAP_CLUSTER_COUNT);
    ScanGives(s, Clamp(SWAP_CLUSTER_COUNT, |s.inactive|), 0, 0);
    if cool {
      ShrinkActiveGives(scan.policy, SWAP_CLUSTER_COUNT);
      GivesTrans(s, scan.policy, ShrinkActive(scan.policy, SWAP_CLUSTER_COUNT).policy, scan.count, 0);
    }
  }

  lemma GivesRefl(s: Policy)
    ensures Gives(s, s, 0)
  {}

  /** The rounds still to come, started after `reclaimed` pages, add up with them. */
  lemma RoundThenRest(s: Policy, round: Result, rest: Result, nr: nat, reclaimed: nat)
    requires Gives(s, round.policy, round.count) && round.count <= SWAP_CLUSTER_COUNT && reclaimed < nr
    requires reclaimed + round.count <= rest.count < nr + SWAP_CLUSTER_COUNT
    requires Gives(round.policy, rest.policy, rest.count - (reclaimed + round.count))
    ensures reclaimed <= rest.count < nr + SWAP_CLUSTER_COUNT && Gives(s, rest.policy, rest.count - reclaimed)
  {
    GivesTrans(s, round.policy, rest.policy, round.count, rest.count - (reclaimed + round.count));
  }

  lemma {:induction false} ReclaimGives(s: Policy, nr: nat, toInactive: nat, toActive: nat,
                                        doneInactive: nat, doneActive: nat, reclaimed: nat)
    requires reclaimed < nr + SWAP_CLUSTER_COUNT
    ensures var r := ReclaimFrom(s, nr, toInactive, toActive, doneInactive, doneActive, reclaimed);
      reclaimed <= r.count < nr + SWAP_CLUSTER_COUNT && Gives(s, r.policy, r.count - reclaimed)
    decreases toInactive - doneInactive
  {
    hide ReclaimRound, Gives;
    if doneInactive < toInactive && reclaimed < nr {
      var round := ReclaimRound(s, doneActive < toActive);
      var doneActive' := if doneActive < toActive then doneActive + SWAP_CLUSTER_COUNT else doneActive;
      RoundGives(s, doneActive < toActive);
      var done := reclaimed + round.count;
      ReclaimGives(round.policy, nr, toInactive, toActive, doneInactive + SWAP_CLUSTER_COUNT, doneActive', done);
      var r := ReclaimFrom(round.policy, nr, toInactive, toActive, doneInactive + SWAP_CLUSTER_COUNT, doneActive', done);
      RoundThenRest(s, round, r, nr, reclaimed);
    } else {
      GivesRefl(s);
    }
  }

  /** A request for k > 0 pages loses no page and evicts at most k + 31. */
  lemma ReclaimBound(s: Policy, nr: nat, priority: nat)
    requires nr > 0
    ensures var r := Reclaim(s, nr, priority);
      && Pages(r.policy) == Pages(s)
      && s.eviction <= r.policy.eviction
      && |r.policy.eviction| == |s.eviction| + r.count
      && r.count <= nr + 31
  {
    hide ReclaimFrom;
    ReclaimGives(s, nr, M.ShiftRight(|s.inactive|, priority), M.ShiftRight(|s.active|, priority), 0, 0, 0);
  }

  lemma ReclaimIsRearranging(s: Policy, nr: nat, priority: nat)
    requires nr > 0
    ensures var t := Reclaim(s, nr, priority).policy;
      Pages(t) == Pages(s) && t.accessed <= s.accessed
  {
    hide ReclaimFrom;
    ReclaimGives(s, nr, M.ShiftRight(|s.inactive|, priority), M.ShiftRight(|s.active|, priority), 0, 0, 0);
  }

  /** One pass of kswapd; `low` is its low watermark. */
  function KswapdPass(s: Policy, low: nat): (r: Result) {
    if |s.active| + |s.inactive| <= low then Result(s, 0)
    else Reclaim(s, |s.active| + |s.inactive| - low, 12)
  }

  lemma KswapdRearranges(s: Policy, low: nat)
    ensures var t := KswapdPass(s, low).policy;
      Pages(t) == Pages(s) && t.accessed <= s.accessed
  {
    hide Reclaim;
    if |s.active| + |s.inactive| > low {
      ReclaimIsRearranging(s, |s.active| + |s.inactive| - low, 12);
    }
  }

  // ----- when a request reclaims something -----

  lemma ShiftedOut(n: nat, k: nat)
    requires n < 2 && k > 0
    ensures M.ShiftRight(n, k) == 0
  {
    ShiftZero(k - 1);
  }

  lemma {:induction false} ShiftZero(k: nat)
    ensures M.ShiftRight(0, k) == 0
  {
    if k > 0 {
      ShiftZero(k - 1);
    }
  }

  lemma ReclaimIdle(s: Policy, nr: nat, priority: nat)
    requires M.ShiftRight(|s.inactive|, priority) == 0
    ensures Reclaim(s, nr, priority) == Result(s, 0)
  {}

  /** A page with a clear bit is met after the pages before it, and goes. */
  lemma {:induction false} ColdGoes(s: Policy, nr: nat, ret: nat, tries: nat, i: nat)
    requires i < |s.inactive| && s.inactive[i] !in s.accessed && ret < nr && tries + i < nr * 100
    ensures ScanFrom(s, nr, ret, tries).count > ret
    decreases i
  {
    if s.inactive[0] !in s.accessed {
      ScanGives(Inspect(s), nr, ret + 1, tries + 1);
    } else {
      assert Inspect(s).inactive[i - 1] == s.inactive[i];
      ColdGoes(Inspect(s), nr, ret, tries + 1, i - 1);
    }
  }

  /** A page that is not hot goes when it is met for the first or the second time. */
  lemma {:induction false} SomeGoes(s: Policy, nr: nat, ret: nat, tries: nat, p: nat)
    requires M.NoDup(s.inactive) && p in s.inactive && !IsHot(s, p) && ret < nr && tries + |s.inactive| < nr * 100
    ensures ScanFrom(s, nr, ret, tries).count > ret
    decreases |s.inactive|
  {
    var (q, t) := (s.inactive[0], Inspect(s));
    NoDupRotate(s.inactive);
    if q !in s.accessed {
      ScanGives(t, nr, ret + 1, tries + 1);
    } else if IsHot(s, q) {
      assert s.inactive == [q] + s.inactive[1..];
      SomeGoes(t, nr, ret, tries + 1, p);
    } else {
      ColdGoes(t, nr, ret, tries + 1, |s.inactive| - 1);
    }
  }

  ghost predicate AllHot(s: Policy) {
    forall p :: p in s.inactive ==> IsHot(s, p)
  }

  /** Hot pages are all promoted, if there are tries for them. */
  lemma {:induction false} HotGo(s: Policy, nr: nat, ret: nat, tries: nat)
    requires M.NoDup(s.inactive) && AllHot(s) && ret < nr && tries + |s.inactive| <= nr * 100
    ensures var r := ScanFrom(s, nr, ret, tries);
      r.count == ret && r.policy.inactive == [] && r.policy.active == s.active + s.inactive && r.policy.eviction == s.eviction
    decreases |s.inactive|
  {
    if s.inactive == [] {
      assert s.active + [] == s.active;
    } else {
      var (q, t) := (s.inactive[0], Inspect(s));
      NoDupRotate(s.inactive);
      assert q in s.inactive && IsHot(s, q) && t.inactive == s.inactive[1..];
      forall p | p in t.inactive ensures IsHot(t, p) {
        assert p in s.inactive && p != q && IsHot(s, p);
      }
      HotGo(t, nr, ret, tries + 1);
      assert s.active + s.inactive == s.active + [q] + s.inactive[1..];
    }
  }

  ghost predicate Uncounted(s: Policy) {
    forall p :: p in s.inactive ==> Count(s, p) == 0
  }

  /** What is demoted has not been seen accessed. */
  lemma {:induction false} DemotedUncounted(s: Policy, nr: nat, ret: nat, tries: nat)
    requires Uncounted(s)
    ensures Uncounted(DemoteFrom(s, nr, ret, tries).policy)
    decreases nr * 100 - tries
  {
    if ret < nr && s.active != [] && tries < nr * 100 {
      var t := Demote(s);
      forall p | p in t.inactive ensures Count(t, p) == 0 {
        assert p in s.inactive || p == s.active[0];
      }
      DemotedUncounted(t, nr, ret + 1, tries + 1);
    }
  }

  /** A page that one scan meets and evicts: one with a clear bit among those it has
      tries for, or any that is not hot if it has tries for all. */
  ghost predicate Yields(s: Policy) {
    || (|s.inactive| < 100 * SWAP_CLUSTER_COUNT && !AllHot(s))
    || exists i :: 0 <= i < |s.inactive| && i < 100 * SWAP_CLUSTER_COUNT && s.inactive[i] !in s.accessed
  }

  lemma ScanYields(s: Policy)
    requires M.NoDup(s.inactive) && Yields(s)
    ensures ShrinkInactive(s, SWAP_CLUSTER_COUNT).count > 0
  {
    var nr := Clamp(SWAP_CLUSTER_COUNT, |s.inactive|);
    if i :| 0 <= i < |s.inactive| && i < 100 * SWAP_CLUSTER_COUNT && s.inactive[i] !in s.accessed {
      ColdGoes(s, nr, 0, 0, i);
    } else {
      var p :| p in s.inactive && !IsHot(s, p);
      SomeGoes(s, nr, 0, 0, p);
    }
  }

  /** A reclaim with pages in sight evicts something if a scan can. */
  lemma ReclaimEvicts(s: Policy, nr: nat, priority: nat)
    requires nr > 0 && M.NoDup(s.inactive) && Yields(s) && M.ShiftRight(|s.inactive|, priority) > 0
    ensures Reclaim(s, nr, priority).count > 0
  {
    hide Yields, ShrinkInactive, ReclaimFrom;
    ScanYields(s);
    FirstRound(s, nr, M.ShiftRight(|s.inactive|, priority), M.ShiftRight(|s.active|, priority));
  }

  /** kswapd never takes the lists more than 31 pages below the watermark; above it, and
      with 4096 inactive pages, it evicts something if a scan can. */
  lemma WatermarkHolds(s: Policy, low: nat)
    ensures var t := KswapdPass(s, low).policy;
      && Pages(t) == Pages(s)
      && (|s.active| + |s.inactive| <= low ==> t == s)
      && (|s.active| + |s.inactive| > low ==> |t.active| + |t.inactive| + 31 >= low)
    ensures |s.active| + |s.inactive| > low && M.ShiftRight(|s.inactive|, 12) > 0
            && M.NoDup(s.inactive) && Yields(s) ==>
      s.eviction < KswapdPass(s, low).policy.eviction
  {
    hide Reclaim, Yields, M.NoDup;
    if |s.active| + |s.inactive| > low {
      var nr := |s.active| + |s.inactive| - low;
      ReclaimBound(s, nr, 12);
      var t := Reclaim(s, nr, 12).policy;
      assert |Pages(s)| == |s.active| + |s.inactive| + |s.eviction|;
      assert |Pages(t)| == |t.active| + |t.inactive| + |t.eviction|;
      if M.ShiftRight(|s.inactive|, 12) > 0 && M.NoDup(s.inactive) && Yields(s) {
        ReclaimEvicts(s, nr, 12);
      }
    }
  }

  /** When all inactive pages are hot, a reclaim of one round evicts nothing: they
      become active, and active pages take their place if the round cools at all. */
  lemma HotReclaim(s: Policy, nr: nat, priority: nat)
    requires nr > 0 && M.NoDup(s.inactive) && AllHot(s) && 0 < |s.inactive| <= 100 * SWAP_CLUSTER_COUNT
    requires M.ShiftRight(|s.inactive|, priority) == 1
    ensures var (r, all) := (Reclaim(s, nr, priority), s.active + s.inactive);
      var k := if M.ShiftRight(|s.active|, priority) == 0 then 0 else Min(SWAP_CLUSTER_COUNT, |all|);
      && r.count == 0 && r.policy.eviction == s.eviction
      && r.policy.inactive == all[..k] && r.policy.active == all[k..]
      && (k > 0 ==> Uncounted(r.policy))
  {
    hide AllHot, ReclaimFrom, ReclaimRound;
    HotScan(s);
    var (scan, all) := (ShrinkInactive(s, SWAP_CLUSTER_COUNT), s.active + s.inactive);
    var toActive := M.ShiftRight(|s.active|, priority);
    OneRound(s, nr, toActive);
    assert all[..0] == [] && all[0..] == all;
    if toActive > 0 {
      Cooled(scan.policy);
    }
  }

  lemma HotScan(s: Policy)
    requires M.NoDup(s.inactive) && AllHot(s) && 0 < |s.inactive| <= 100 * SWAP_CLUSTER_COUNT
    ensures var r := ShrinkInactive(s, SWAP_CLUSTER_COUNT);
      r.count == 0 && r.policy.inactive == [] && r.policy.active == s.active + s.inactive && r.policy.eviction == s.eviction
  {
    HotGo(s, Clamp(SWAP_CLUSTER_COUNT, |s.inactive|), 0, 0);
  }

  lemma Cooled(s: Policy)
    requires s.inactive == []
    ensures var (t, k) := (ShrinkActive(s, SWAP_CLUSTER_COUNT).policy, Min(SWAP_CLUSTER_COUNT, |s.active|));
      && t.inactive == s.active[..k] && t.active == s.active[k..] && t.eviction == s.eviction
      && Uncounted(t)
  {
    hide Count, Uncounted;
    ShrinkActiveExact(s, SWAP_CLUSTER_COUNT);
    CooledUncounted(s);
    hide ShrinkActive;
    assert s.inactive + s.active[..Min(SWAP_CLUSTER_COUNT, |s.active|)] == s.active[..Min(SWAP_CLUSTER_COUNT, |s.active|)];
  }

  lemma CooledUncounted(s: Policy)
    requires s.inactive == []
    ensures Uncounted(ShrinkActive(s, SWAP_CLUSTER_COUNT).policy)
  {
    hide Count;
    DemotedUncounted(s, Min(SWAP_CLUSTER_COUNT, |s.active|), 0, 0);
  }

  lemma OneRound(s: Policy, nr: nat, toActive: nat)
    requires nr > 0
    ensures var round := ReclaimRound(s, 0 < toActive);
      && ReclaimFrom(s, nr, 1, toActive, 0, 0, 0) == Result(round.policy, round.count)
      && round.count == ShrinkInactive(s, SWAP_CLUSTER_COUNT).count
      && var scan := ShrinkInactive(s, SWAP_CLUSTER_COUNT).policy;
         round.policy == if 0 < toActive then ShrinkActive(scan, SWAP_CLUSTER_COUNT).policy else scan
  {
    hide ShrinkInactive, ShrinkActive;
  }

  lemma FirstRound(s: Policy, nr: nat, toInactive: nat, toActive: nat)
    requires nr > 0 && toInactive > 0
    ensures ReclaimFrom(s, nr, toInactive, toActive, 0, 0, 0).count
         >= ShrinkInactive(s, SWAP_CLUSTER_COUNT).count
  {
    hide ShrinkInactive, ShrinkActive, Gives;
    var round := ReclaimRound(s, 0 < toActive);
    RoundGives(s, 0 < toActive);
    ReclaimGives(round.policy, nr, toInactive, toActive, SWAP_CLUSTER_COUNT,
                 if 0 < toActive then SWAP_CLUSTER_COUNT else 0, round.count);
  }
}
