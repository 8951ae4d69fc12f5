/** What reclaim does, page by page, when no accessed bit is set: which pages it moves,
    how many, and in which order. */
module ColdReclaim {
  import M = Machine
  import opened SecondChance

  /** The `k` oldest inactive pages await eviction, and the `d` oldest active ones have
      become the youngest inactive ones. */
  predicate Shifted(s: Policy, t: Policy, k: nat, d: nat) {
    && k <= |s.inactive| && d <= |s.active|
    && t.eviction == s.eviction + s.inactive[..k]
    && t.inactive == s.inactive[k..] + s.active[..d]
    && t.active == s.active[d..]
    && t.accessed == s.accessed
  }

  lemma ShiftedNone(s: Policy)
    ensures Shifted(s, s, 0, 0)
  {
    assert s.eviction + s.inactive[..0] == s.eviction && s.inactive[0..] + s.active[..0] == s.inactive;
  }

  lemma SplitTwice(a: seq<nat>, k: nat, l: nat)
    requires k + l <= |a|
    ensures a[k..][l..] == a[k + l..] && a[..k] + a[k..][..l] == a[..k + l]
  {}

  lemma SplitSum(a: seq<nat>, b: seq<nat>, l: nat)
    requires l <= |a|
    ensures (a + b)[l..] == a[l..] + b && (a + b)[..l] == a[..l]
  {}

  lemma ShiftedMore(s: Policy, t: Policy, u: Policy, k: nat, d: nat, l: nat, e: nat)
    requires Shifted(s, t, k, d) && Shifted(t, u, l, e) && k + l <= |s.inactive|
    ensures Shifted(s, u, k + l, d + e)
  {
    SplitSum(s.inactive[k..], s.active[..d], l);
    SplitTwice(s.inactive, k, l);
    SplitTwice(s.active, d, e);
    assert s.inactive[k + l..] + s.active[..d] + s.active[d..][..e] == s.inactive[k + l..] + s.active[..d + e];
    assert s.eviction + s.inactive[..k] + s.inactive[k..][..l] == s.eviction + s.inactive[..k + l];
  }

  lemma {:induction false} ColdScan(s: Policy, nr: nat, ret: nat)
    requires s.accessed == {} && ret <= nr <= ret + |s.inactive|
    ensures var r := ScanFrom(s, nr, ret, ret); r.count == nr && Shifted(s, r.policy, nr - ret, 0)
    decreases nr - ret
  {
    if ret == nr {
      ShiftedNone(s);
    } else {
      var t := Inspect(s);
      assert Shifted(s, t, 1, 0) by {
        assert s.inactive[..1] == [s.inactive[0]];
        assert s.inactive[1..] + s.active[..0] == s.inactive[1..];
      }
      ColdScan(t, nr, ret + 1);
      ShiftedMore(s, t, ScanFrom(t, nr, ret + 1, ret + 1).policy, 1, 0, nr - ret - 1, 0);
    }
  }

  /** A scan for a cluster takes the 32 oldest, or all there are. */
  lemma ColdShrink(s: Policy)
    requires s.accessed == {}
    ensures var (r, k) := (ShrinkInactive(s, SWAP_CLUSTER_COUNT), if |s.inactive| < 32 then |s.inactive| else 32);
      r.count == k && Shifted(s, r.policy, k, 0)
  {
    ColdScan(s, if |s.inactive| < 32 then |s.inactive| else 32, 0);
  }

  /** A round that cools moves a cluster of active pages as well. */
  lemma ColdRound(s: Policy, cool: bool)
    requires s.accessed == {}
    ensures var (r, k) := (ReclaimRound(s, cool), if |s.inactive| < 32 then |s.inactive| else 32);
      r.count == k && Shifted(s, r.policy, k, if !cool then 0 else if |s.active| < 32 then |s.active| else 32)
  {
    hide ShrinkInactive, ShrinkActive;
    var t := ShrinkInactive(s, SWAP_CLUSTER_COUNT).policy;
    var k := if |s.inactive| < 32 then |s.inactive| else 32;
    ColdShrink(s);
    ShrinkActiveExact(t, SWAP_CLUSTER_COUNT);
    if cool {
      var d := if |s.active| < 32 then |s.active| else 32;
      var u := ShrinkActive(t, SWAP_CLUSTER_COUNT).policy;
      assert t.active == s.active;
      assert Shifted(t, u, 0, d) by {
        assert t.eviction + t.inactive[..0] == t.eviction && t.inactive[0..] == t.inactive;
      }
      ShiftedMore(s, t, u, k, 0, 0, d);
    }
  }

  lemma ShiftedSizes(s: Policy, t: Policy, k: nat, d: nat)
    requires Shifted(s, t, k, d)
    ensures k <= |s.inactive| && d <= |s.active|
    ensures |t.inactive| == |s.inactive| - k + d && |t.active| == |s.active| - d && t.accessed == s.accessed
  {}

  /** The first of several rounds. */
  lemma FirstOfRounds(s: Policy, nr: nat, c: nat, a: nat, done: nat, doneActive: nat, reclaimed: nat) returns (t: Policy)
    requires s.accessed == {} && |s.inactive| >= 32 && (doneActive < a ==> |s.active| >= 32)
    requires done < c && reclaimed < nr
    ensures var e := if doneActive < a then 32 else 0;
      && Shifted(s, t, 32, e)
      && ReclaimFrom(s, nr, c, a, done, doneActive, reclaimed)
         == ReclaimFrom(t, nr, c, a, done + 32, doneActive + e, reclaimed + 32)
  {
    hide ReclaimRound, Shifted;
    ColdRound(s, doneActive < a);
    t := ReclaimRound(s, doneActive < a).policy;
  }

  /** Rounds go on until as many pages are looked at, or as many reclaimed, as are asked
      for; active pages are demoted in as many of the first rounds as are asked for. */
  lemma {:induction false} ColdRounds(s: Policy, nr: nat, c: nat, a: nat, done: nat, doneActive: nat, reclaimed: nat)
      returns (k: nat, d: nat)
    requires s.accessed == {} && |s.inactive| + done >= c + 31 && (doneActive < a ==> |s.active| + doneActive >= a + 31)
    ensures done + 32 * k >= c || reclaimed + 32 * k >= nr
    ensures k > 0 ==> done + 32 * (k - 1) < c && reclaimed + 32 * (k - 1) < nr
    ensures d <= k && (doneActive + 32 * d >= a || d == k)
    ensures d > 0 ==> doneActive + 32 * (d - 1) < a
    ensures var r := ReclaimFrom(s, nr, c, a, done, doneActive, reclaimed);
      r.count == reclaimed + 32 * k && Shifted(s, r.policy, 32 * k, 32 * d)
    decreases c - done
  {
    hide ReclaimRound, Shifted;
    if done < c && reclaimed < nr {
      var e := if doneActive < a then 1 else 0;
      var t := FirstOfRounds(s, nr, c, a, done, doneActive, reclaimed);
      ShiftedSizes(s, t, 32, 32 * e);
      var l, f := ColdRounds(t, nr, c, a, done + 32, doneActive + 32 * e, reclaimed + 32);
      k, d := 1 + l, e + f;
      var last := ReclaimFrom(t, nr, c, a, done + 32, doneActive + 32 * e, reclaimed + 32);
      hide ReclaimFrom;
      ShiftedSizes(t, last.policy, 32 * l, 32 * f);
      ShiftedMore(s, t, last.policy, 32, 32 * e, 32 * l, 32 * f);
    } else {
      k, d := 0, 0;
      ShiftedNone(s);
    }
  }

  // ----- kswapd -----

  lemma ShiftTwelve(n: nat)
    ensures M.ShiftRight(n, 12) == n / 4096
  {
    hide M.ShiftRight;
    ShiftThree(n);
    ShiftThree(n / 8);
    ShiftThree(n / 64);
    ShiftThree(n / 512);
    ShiftAgain(n, 3, 9);
    ShiftAgain(n / 8, 3, 6);
    ShiftAgain(n / 64, 3, 3);
  }

  lemma ShiftThree(n: nat)
    ensures M.ShiftRight(n, 3) == n / 8
  {
    assert M.ShiftRight(n, 3) == M.ShiftRight(n / 2, 2) == M.ShiftRight(n / 4, 1) == M.ShiftRight(n / 8, 0);
  }

  lemma {:induction false} ShiftAgain(n: nat, j: nat, k: nat)
    ensures M.ShiftRight(n, j + k) == M.ShiftRight(M.ShiftRight(n, j), k)
    decreases j
  {
    if j > 0 {
      ShiftAgain(n / 2, j - 1, k);
    }
  }

  /** kswapd asks for what the lists hold above the low watermark.  It goes through the
      inactive list by clusters of 32, until it has looked at one page in 4096 or has got
      what it asks for, and demotes as many clusters, up to one active page in 4096. */
  lemma KswapdExact(s: Policy, low: nat) returns (k: nat, d: nat)
    requires s.accessed == {} && |s.active| + |s.inactive| > low
    ensures var (c, a, nr) := (|s.inactive| / 4096, |s.active| / 4096, |s.active| + |s.inactive| - low);
      && (32 * k >= c || 32 * k >= nr) && (k > 0 ==> 32 * (k - 1) < c && 32 * (k - 1) < nr)
      && d <= k && (32 * d >= a || d == k) && (d > 0 ==> 32 * (d - 1) < a)
    ensures Shifted(s, KswapdPass(s, low).policy, 32 * k, 32 * d) && KswapdPass(s, low).count == 32 * k
  {
    hide Shifted, ReclaimFrom;
    var (c, a, nr) := (|s.inactive| / 4096, |s.active| / 4096, |s.active| + |s.inactive| - low);
    ShiftTwelve(|s.inactive|);
    ShiftTwelve(|s.active|);
    if c == 0 {
      k, d := 0, 0;
      ReclaimIdle(s, nr, 12);
      ShiftedNone(s);
    } else {
      k, d := ColdRounds(s, nr, c, a, 0, 0, 0);
    }
  }

  // ----- a search for a frame -----

  /** A reclaim for one cluster that starts at all takes one, whatever its urgency. */
  lemma ColdCluster(s: Policy, priority: nat)
    requires s.accessed == {} && M.ShiftRight(|s.inactive|, priority) > 0
    ensures var k := if |s.inactive| < 32 then |s.inactive| else 32;
      var d := if M.ShiftRight(|s.active|, priority) == 0 then 0 else if |s.active| < 32 then |s.active| else 32;
      Shifted(s, Reclaim(s, SWAP_CLUSTER_COUNT, priority).policy, k, d)
  {
    hide ReclaimRound, Shifted;
    var (c, a) := (M.ShiftRight(|s.inactive|, priority), M.ShiftRight(|s.active|, priority));
    ShiftLess(|s.inactive|, priority);
    ColdRound(s, 0 < a);
    var round := ReclaimRound(s, 0 < a);
    assert ReclaimFrom(s, SWAP_CLUSTER_COUNT, c, a, 0, 0, 0)
        == ReclaimFrom(round.policy, SWAP_CLUSTER_COUNT, c, a, 32, if 0 < a then 32 else 0, round.count);
  }

  lemma {:induction false} ShiftLess(n: nat, k: nat)
    ensures M.ShiftRight(n, k) <= n
    decreases k
  {
    if k > 0 {
      ShiftLess(n / 2, k - 1);
    }
  }

  // ----- pages that are accessed -----

  /** One look, with the bits as they then are. */
  function LookOnce(s: Policy, bits: set<nat>): Policy {
    if s.inactive == [] then s else Inspect(s.(accessed := bits))
  }

  function LookAll(s: Policy, bits: seq<set<nat>>): Policy
    decreases |bits|
  {
    if bits == [] then s else LookAll(LookOnce(s, bits[0]), bits[1..])
  }

  lemma {:induction false} LookLast(s: Policy, bits: seq<set<nat>>)
    requires bits != []
    ensures LookAll(s, bits) == LookOnce(LookAll(s, bits[..|bits| - 1]), bits[|bits| - 1])
    decreases |bits|
  {
    if |bits| > 1 {
      assert bits[1..][..|bits| - 2] == bits[..|bits| - 1][1..];
      LookLast(LookOnce(s, bits[0]), bits[1..]);
    } else {
      assert bits[..0] == [] && bits[1..] == [];
    }
  }

  /** After as many looks as there are pages before it, a page is next. */
  lemma {:induction false} ComesRound(s: Policy, p: nat, rest: seq<nat>, more: seq<nat>, bits: seq<set<nat>>)
    requires s.inactive == rest + [p] + more && p !in rest && |bits| == |rest|
    ensures var t := LookAll(s, bits); t.inactive != [] && t.inactive[0] == p && Count(t, p) == Count(s, p)
    decreases |rest|
  {
    if rest != [] {
      var t := LookOnce(s, bits[0]);
      var back := if rest[0] in bits[0] && Count(s, rest[0]) + 1 <= 1 then [rest[0]] else [];
      assert s.inactive[1..] == rest[1..] + [p] + more;
      assert t.inactive == rest[1..] + [p] + (more + back);
      ComesRound(t, p, rest[1..], more + back, bits[1..]);
    }
  }

  /** An inactive page that is met accessed for the first time is passed over.  When it is
      met again, it is promoted if it was accessed since, and awaits eviction if not,
      whatever was accessed in between. */
  lemma SecondLook(s: Policy, bits: seq<set<nat>>)
    requires s.inactive != [] && M.NoDup(s.inactive) && |bits| == |s.inactive| + 1
    requires Count(s, s.inactive[0]) == 0 && s.inactive[0] in bits[0]
    ensures var (p, n) := (s.inactive[0], |s.inactive|);
      var (t, u) := (LookAll(s, bits[..n]), LookAll(s, bits));
      && t.inactive != [] && t.inactive[0] == p
      && (p in bits[n] ==> u.active == t.active + [p] && u.eviction == t.eviction)
      && (p !in bits[n] ==> u.eviction == t.eviction + [p] && u.active == t.active)
  {
    var (p, n, rest) := (s.inactive[0], |s.inactive|, s.inactive[1..]);
    var t := LookOnce(s, bits[0]);
    assert p !in rest;
    assert t.inactive == rest + [p] + [] && Count(t, p) == 1;
    assert bits[..n][1..] == bits[1..n] && bits[..n][0] == bits[0];
    ComesRound(t, p, rest, [], bits[1..n]);
    LookLast(s, bits);
    assert bits[..|bits| - 1] == bits[..n];
  }

  /** One look at an accessed page. */
  lemma OneTry(s: Policy, l: seq<nat>, tail: seq<nat>)
    requires s.inactive == l + tail && l != [] && l[0] in s.accessed
    ensures var (p, t) := (l[0], Inspect(s));
      var (back, up) := (if IsHot(s, p) then [] else [p], if IsHot(s, p) then [p] else []);
      && s.inactive != [] && s.inactive[0] == p && t.eviction == s.eviction
      && t.inactive == l[1..] + (tail + back) && t.active == s.active + up
  {
    assert s.inactive[1..] == l[1..] + tail;
  }

  lemma OneTryLeaves(s: Policy, l: seq<nat>)
    requires M.NoDup(l) && l != [] && s.inactive != [] && s.inactive[0] == l[0]
    requires forall p :: p in l ==> p in s.accessed
    ensures M.NoDup(l[1..]) && forall q :: q in l[1..] ==> q in Inspect(s).accessed
    ensures Warm(Inspect(s), l[1..]) == Warm(s, l[1..]) && Hot(Inspect(s), l[1..]) == Hot(s, l[1..])
  {
    hide Warm, Hot;
    NoDupRotate(l);
    forall q | q in l[1..] ensures q in s.accessed && q in Inspect(s).accessed && Count(Inspect(s), q) == Count(s, q) {
      assert q in l && q != l[0];
    }
    SameClasses(s, Inspect(s), l[1..]);
  }

  lemma ClassesFirst(s: Policy, l: seq<nat>)
    requires l != [] && l[0] in s.accessed
    ensures Warm(s, l) == (if IsHot(s, l[0]) then [] else [l[0]]) + Warm(s, l[1..])
    ensures Hot(s, l) == (if IsHot(s, l[0]) then [l[0]] else []) + Hot(s, l[1..])
  {
    hide IsHot;
    ClassesHead(s, l);
  }

  /** The looks that a scan has, spent on accessed pages: none is evicted, and the pages
      after them are not looked at. */
  lemma {:induction false} TriesRunOut(s: Policy, l: seq<nat>, tail: seq<nat>, nr: nat, ret: nat, tries: nat)
    requires s.inactive == l + tail && M.NoDup(l) && (forall p :: p in l ==> p in s.accessed)
    requires ret < nr && tries + |l| == nr * 100
    ensures var r := ScanFrom(s, nr, ret, tries);
      && r.count == ret && r.policy.eviction == s.eviction
      && r.policy.inactive == tail + Warm(s, l) && r.policy.active == s.active + Hot(s, l)
    decreases |l|
  {
    if l == [] {
      assert tail + Warm(s, l) == s.inactive && s.active + Hot(s, l) == s.active;
    } else {
      hide Warm, Hot, Inspect;
      var (p, t) := (l[0], Inspect(s));
      var (back, up) := (if IsHot(s, p) then [] else [p], if IsHot(s, p) then [p] else []);
      OneTry(s, l, tail);
      OneTryLeaves(s, l);
      ClassesFirst(s, l);
      TriesRunOut(t, l[1..], tail + back, nr, ret, tries + 1);
      Regroup(tail, back, Warm(s, l[1..]));
      Regroup(s.active, up, Hot(s, l[1..]));
    }
  }

  /** A scan for a cluster gives up after 3200 looks. */
  lemma ScanGivesUp(s: Policy)
    requires M.NoDup(s.inactive) && |s.inactive| >= 3200
    requires forall p :: p in s.inactive[..3200] ==> p in s.accessed
    ensures var (r, l) := (ShrinkInactive(s, 32), s.inactive[..3200]);
      && r.count == 0 && r.policy.eviction == s.eviction
      && r.policy.inactive == s.inactive[3200..] + Warm(s, l) && r.policy.active == s.active + Hot(s, l)
  {
    assert s.inactive == s.inactive[..3200] + s.inactive[3200..];
    TriesRunOut(s, s.inactive[..3200], s.inactive[3200..], 32, 0, 0);
  }
}
