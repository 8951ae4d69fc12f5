/** HASH_SRT: the bottom-up merge sort of the list in application order. */
module MergeSort {
  import opened Links
  import opened Removal

  /** A comparison of items, which are known by their keys. */
  type Compare = (nat, nat) -> int

  predicate Before(cmp: Compare, a: nat, b: nat) {
    cmp(a, b) <= 0
  }

  ghost predicate TotalPreorder(cmp: Compare) {
    && (forall a, b :: Before(cmp, a, b) || Before(cmp, b, a))
    && (forall a, b, c :: Before(cmp, a, b) && Before(cmp, b, c) ==> Before(cmp, a, c))
  }

  function Min(a: nat, b: nat): nat {
    if a <= b then a else b
  }

  /** Two runs become one; of equal items the one from the first run comes first. */
  function Merge(cmp: Compare, xs: seq<nat>, ys: seq<nat>): (r: seq<nat>)
    ensures |r| == |xs| + |ys|
    decreases |xs| + |ys|
  {
    if xs == [] then ys
    else if ys == [] then xs
    else if Before(cmp, xs[0], ys[0]) then [xs[0]] + Merge(cmp, xs[1..], ys)
    else [ys[0]] + Merge(cmp, xs, ys[1..])
  }

  /** One pass over `s`: runs of `n` items are merged two by two. */
  function Pass(cmp: Compare, s: seq<nat>, n: nat): (r: seq<nat>)
    requires n > 0
    ensures |r| == |s|
    decreases |s|
  {
    if s == [] then []
    else
      var (mid, hi) := (Min(n, |s|), Min(n + n, |s|));
      Merge(cmp, s[..mid], s[mid..hi]) + Pass(cmp, s[hi..], n)
  }

  /** How many merges a pass takes. */
  function Merges(length: nat, n: nat): nat
    requires n > 0
    decreases length
  {
    if length == 0 then 0 else 1 + Merges(length - Min(n + n, length), n)
  }

  function SortFrom(cmp: Compare, s: seq<nat>, n: nat): (r: seq<nat>)
    requires n > 0
    ensures |r| == |s|
    decreases if |s| > n then |s| - n else 0
  {
    if |s| <= n + n then Pass(cmp, s, n) else SortFrom(cmp, Pass(cmp, s, n), n + n)
  }

  function Sorted(cmp: Compare, s: seq<nat>): (r: seq<nat>)
    ensures |r| == |s|
  {
    SortFrom(cmp, s, 1)
  }

  // ----- what sorting means -----

  ghost predicate Ordered(cmp: Compare, s: seq<nat>) {
    forall i, j :: 0 <= i < j < |s| ==> Before(cmp, s[i], s[j])
  }

  predicate Same(cmp: Compare, a: nat, b: nat) {
    Before(cmp, a, b) && Before(cmp, b, a)
  }

  /** The items of `s` that compare equal to `x`, in order. */
  function Class(cmp: Compare, x: nat, s: seq<nat>): seq<nat> {
    if s == [] then [] else (if Same(cmp, x, s[0]) then [s[0]] else []) + Class(cmp, x, s[1..])
  }

  /** Neither order nor number of equal items differs. */
  ghost predicate Stable(cmp: Compare, s: seq<nat>, t: seq<nat>) {
    forall x {:trigger Class(cmp, x, t)} {:trigger Class(cmp, x, s)} :: Class(cmp, x, t) == Class(cmp, x, s)
  }

  // ----- merging -----

  lemma ConsMembers(x: nat, s: seq<nat>)
    ensures multiset([x] + s) == multiset{x} + multiset(s)
  {}

  lemma {:induction false} MergeMembers(cmp: Compare, xs: seq<nat>, ys: seq<nat>)
    ensures multiset(Merge(cmp, xs, ys)) == multiset(xs) + multiset(ys)
    decreases |xs| + |ys|
  {
    hide Before;
    if xs != [] && ys != [] {
      if Before(cmp, xs[0], ys[0]) {
        MergeMembers(cmp, xs[1..], ys);
        ConsMembers(xs[0], Merge(cmp, xs[1..], ys));
        ConsMembers(xs[0], xs[1..]);
        assert xs == [xs[0]] + xs[1..];
      } else {
        MergeMembers(cmp, xs, ys[1..]);
        ConsMembers(ys[0], Merge(cmp, xs, ys[1..]));
        ConsMembers(ys[0], ys[1..]);
        assert ys == [ys[0]] + ys[1..];
      }
    }
  }

  lemma InMerge(cmp: Compare, xs: seq<nat>, ys: seq<nat>, x: nat)
    ensures x in Merge(cmp, xs, ys) <==> x in xs || x in ys
  {
    MergeMembers(cmp, xs, ys);
    assert x in multiset(Merge(cmp, xs, ys)) <==> x in multiset(xs) + multiset(ys);
  }

  lemma OrderedCons(cmp: Compare, x: nat, s: seq<nat>)
    requires Ordered(cmp, s) && forall y :: y in s ==> Before(cmp, x, y)
    ensures Ordered(cmp, [x] + s)
  {}

  lemma {:induction false} MergeOrdered(cmp: Compare, xs: seq<nat>, ys: seq<nat>)
    requires TotalPreorder(cmp) && Ordered(cmp, xs) && Ordered(cmp, ys)
    ensures Ordered(cmp, Merge(cmp, xs, ys))
    decreases |xs| + |ys|
  {
    if xs != [] && ys != [] {
      if Before(cmp, xs[0], ys[0]) {
        MergeOrdered(cmp, xs[1..], ys);
        forall y | y in Merge(cmp, xs[1..], ys) ensures Before(cmp, xs[0], y) {
          InMerge(cmp, xs[1..], ys, y);
        }
        OrderedCons(cmp, xs[0], Merge(cmp, xs[1..], ys));
      } else {
        MergeOrdered(cmp, xs, ys[1..]);
        forall y | y in Merge(cmp, xs, ys[1..]) ensures Before(cmp, ys[0], y) {
          InMerge(cmp, xs, ys[1..], y);
        }
        OrderedCons(cmp, ys[0], Merge(cmp, xs, ys[1..]));
      }
    }
  }

  lemma NoClass(cmp: Compare, x: nat)
    ensures Class(cmp, x, []) == []
  {}

  lemma ClassCons(cmp: Compare, x: nat, y: nat, s: seq<nat>)
    ensures Class(cmp, x, [y] + s) == (if Same(cmp, x, y) then [y] else []) + Class(cmp, x, s)
  {
    assert ([y] + s)[1..] == s;
  }

  lemma {:induction false} ClassAppend(cmp: Compare, x: nat, s: seq<nat>, t: seq<nat>)
    ensures Class(cmp, x, s + t) == Class(cmp, x, s) + Class(cmp, x, t)
  {
    hide Class, Same;
    if s == [] {
      NoClass(cmp, x);
      assert s + t == t;
    } else {
      ClassAppend(cmp, x, s[1..], t);
      ClassCons(cmp, x, s[0], s[1..]);
      ClassCons(cmp, x, s[0], s[1..] + t);
      assert s == [s[0]] + s[1..] && s + t == [s[0]] + (s[1..] + t);
    }
  }

  lemma {:induction false} ClassEmpty(cmp: Compare, x: nat, s: seq<nat>)
    requires forall y :: y in s ==> !Same(cmp, x, y)
    ensures Class(cmp, x, s) == []
  {
    if s != [] {
      ClassEmpty(cmp, x, s[1..]);
    }
  }

  lemma {:induction false} MergeStable(cmp: Compare, xs: seq<nat>, ys: seq<nat>, x: nat)
    requires TotalPreorder(cmp) && Ordered(cmp, xs)
    ensures Class(cmp, x, Merge(cmp, xs, ys)) == Class(cmp, x, xs) + Class(cmp, x, ys)
    decreases |xs| + |ys|
  {
    hide Same, Before, TotalPreorder, Class;
    NoClass(cmp, x);
    if xs != [] && ys != [] {
      if Before(cmp, xs[0], ys[0]) {
        OrderedRest(cmp, xs);
        MergeStable(cmp, xs[1..], ys, x);
        ClassCons(cmp, x, xs[0], Merge(cmp, xs[1..], ys));
        ClassCons(cmp, x, xs[0], xs[1..]);
        assert xs == [xs[0]] + xs[1..];
      } else {
        MergeStable(cmp, xs, ys[1..], x);
        ClassCons(cmp, x, ys[0], Merge(cmp, xs, ys[1..]));
        ClassCons(cmp, x, ys[0], ys[1..]);
        assert ys == [ys[0]] + ys[1..];
        if Same(cmp, x, ys[0]) { AfterBoth(cmp, xs, ys[0], x); }
      }
    }
  }

  lemma OrderedRest(cmp: Compare, s: seq<nat>)
    requires Ordered(cmp, s) && s != []
    ensures Ordered(cmp, s[1..])
  {}

  /** What comes after an item of the class of `x` is not in the class. */
  lemma AfterBoth(cmp: Compare, xs: seq<nat>, y: nat, x: nat)
    requires TotalPreorder(cmp) && Ordered(cmp, xs) && xs != [] && !Before(cmp, xs[0], y) && Same(cmp, x, y)
    ensures Class(cmp, x, xs) == []
  {
    forall z | z in xs ensures !Same(cmp, x, z) {
      assert Before(cmp, xs[0], xs[0]) && Before(cmp, xs[0], z);
    }
    ClassEmpty(cmp, x, xs);
  }

  // ----- passes -----

  /** Every run of `n` items, counted from the start, is in order. */
  ghost predicate RunsOrdered(cmp: Compare, s: seq<nat>, n: nat)
    requires n > 0
    decreases |s|
  {
    s == [] || (Ordered(cmp, s[..Min(n, |s|)]) && RunsOrdered(cmp, s[Min(n, |s|)..], n))
  }

  lemma {:induction false} SingleRuns(cmp: Compare, s: seq<nat>)
    ensures RunsOrdered(cmp, s, 1)
    decreases |s|
  {
    if s != [] {
      SingleRuns(cmp, s[1..]);
    }
  }

  lemma Slices(s: seq<nat>, mid: nat, hi: nat)
    requires mid <= hi <= |s|
    ensures s == s[..mid] + s[mid..hi] + s[hi..]
    ensures s[mid..][..hi - mid] == s[mid..hi] && s[mid..][hi - mid..] == s[hi..]
  {}

  lemma SliceMembers(s: seq<nat>, mid: nat, hi: nat)
    requires mid <= hi <= |s|
    ensures multiset(s) == multiset(s[..mid]) + multiset(s[mid..hi]) + multiset(s[hi..])
  {
    Slices(s, mid, hi);
    assert multiset(s) == multiset(s[..mid] + s[mid..hi] + s[hi..]);
  }

  /** The two runs that a pass merges first, and the rest. */
  lemma TwoRuns(cmp: Compare, s: seq<nat>, n: nat)
    requires n > 0 && s != [] && RunsOrdered(cmp, s, n)
    ensures var (mid, hi) := (Min(n, |s|), Min(n + n, |s|));
      && Ordered(cmp, s[..mid]) && Ordered(cmp, s[mid..hi]) && RunsOrdered(cmp, s[hi..], n)
      && s == s[..mid] + s[mid..hi] + s[hi..]
  {
    var (mid, hi) := (Min(n, |s|), Min(n + n, |s|));
    Slices(s, mid, hi);
    var rest := s[mid..];
    assert RunsOrdered(cmp, rest, n) && Min(n, |rest|) == hi - mid;
  }

  lemma {:induction false} PassRuns(cmp: Compare, s: seq<nat>, n: nat)
    requires TotalPreorder(cmp) && n > 0 && RunsOrdered(cmp, s, n)
    ensures RunsOrdered(cmp, Pass(cmp, s, n), n + n)
    decreases |s|
  {
    if s != [] {
      var (mid, hi) := (Min(n, |s|), Min(n + n, |s|));
      TwoRuns(cmp, s, n);
      MergeOrdered(cmp, s[..mid], s[mid..hi]);
      PassRuns(cmp, s[hi..], n);
      var r := Pass(cmp, s, n);
      assert r[..hi] == Merge(cmp, s[..mid], s[mid..hi]) && r[hi..] == Pass(cmp, s[hi..], n);
    }
  }

  lemma {:induction false} PassStable(cmp: Compare, s: seq<nat>, n: nat, x: nat)
    requires TotalPreorder(cmp) && n > 0 && RunsOrdered(cmp, s, n)
    ensures Class(cmp, x, Pass(cmp, s, n)) == Class(cmp, x, s)
    decreases |s|
  {
    if s != [] {
      var (mid, hi) := (Min(n, |s|), Min(n + n, |s|));
      TwoRuns(cmp, s, n);
      PassStable(cmp, s[hi..], n, x);
      MergeStable(cmp, s[..mid], s[mid..hi], x);
      ClassAppend(cmp, x, Merge(cmp, s[..mid], s[mid..hi]), Pass(cmp, s[hi..], n));
      ClassAppend(cmp, x, s[..mid] + s[mid..hi], s[hi..]);
      ClassAppend(cmp, x, s[..mid], s[mid..hi]);
    }
  }

  lemma {:induction false} PassMembers(cmp: Compare, s: seq<nat>, n: nat)
    requires n > 0
    ensures multiset(Pass(cmp, s, n)) == multiset(s)
    decreases |s|
  {
    if s != [] {
      var (mid, hi) := (Min(n, |s|), Min(n + n, |s|));
      PassMembers(cmp, s[hi..], n);
      MergeMembers(cmp, s[..mid], s[mid..hi]);
      SliceMembers(s, mid, hi);
    }
  }

  // ----- the whole sort -----

  lemma {:induction false} SortFromIsRight(cmp: Compare, s: seq<nat>, n: nat)
    requires TotalPreorder(cmp) && n > 0 && RunsOrdered(cmp, s, n)
    ensures Ordered(cmp, SortFrom(cmp, s, n)) && Stable(cmp, s, SortFrom(cmp, s, n))
    decreases if |s| > n then |s| - n else 0
  {
    var r := Pass(cmp, s, n);
    PassRuns(cmp, s, n);
    forall x ensures Class(cmp, x, r) == Class(cmp, x, s) { PassStable(cmp, s, n, x); }
    if |s| <= n + n {
      assert r != [] ==> r[..Min(n + n, |r|)] == r;
    } else {
      SortFromIsRight(cmp, r, n + n);
    }
  }

  /** For any total preorder the result is in order, and equal items keep their order. */
  lemma SortedIsRight(cmp: Compare, s: seq<nat>)
    requires TotalPreorder(cmp)
    ensures Ordered(cmp, Sorted(cmp, s)) && Stable(cmp, s, Sorted(cmp, s))
  {
    SingleRuns(cmp, s);
    SortFromIsRight(cmp, s, 1);
  }

  /** For any comparison at all, the result is a permutation. */
  lemma {:induction false} SortFromMembers(cmp: Compare, s: seq<nat>, n: nat)
    requires n > 0
    ensures multiset(SortFrom(cmp, s, n)) == multiset(s)
    decreases if |s| > n then |s| - n else 0
  {
    PassMembers(cmp, s, n);
    if |s| > n + n {
      SortFromMembers(cmp, Pass(cmp, s, n), n + n);
    }
  }

  lemma SortedMembers(cmp: Compare, s: seq<nat>)
    ensures multiset(Sorted(cmp, s)) == multiset(s)
  {
    SortFromMembers(cmp, s, 1);
  }

  lemma {:induction false} InClass(cmp: Compare, x: nat, s: seq<nat>, y: nat)
    ensures y in Class(cmp, x, s) <==> y in s && Same(cmp, x, y)
  {
    if s != [] {
      InClass(cmp, x, s[1..], y);
      assert s == [s[0]] + s[1..];
    }
  }

  lemma FirstOfBoth(cmp: Compare, s: seq<nat>, t: seq<nat>)
    requires TotalPreorder(cmp) && Ordered(cmp, s) && Ordered(cmp, t) && Stable(cmp, s, t) && s != []
    ensures t != [] && t[0] == s[0]
  {
    assert Same(cmp, s[0], s[0]) && s[0] in s;
    InClass(cmp, s[0], s, s[0]);
    assert Class(cmp, s[0], t) == Class(cmp, s[0], s);
    InClass(cmp, s[0], t, s[0]);
    assert s[0] in t && Same(cmp, t[0], t[0]) && t[0] in t;
    assert Class(cmp, t[0], t) == Class(cmp, t[0], s);
    InClass(cmp, t[0], t, t[0]);
    InClass(cmp, t[0], s, t[0]);
    assert t[0] in s;
    assert Before(cmp, s[0], t[0]) && Before(cmp, t[0], s[0]);
    assert Class(cmp, s[0], t)[0] == t[0];
  }

  lemma ClassOfFirst(cmp: Compare, s: seq<nat>)
    requires TotalPreorder(cmp)
    ensures s != [] ==> Class(cmp, s[0], s) != []
  {}

  lemma BothEmpty(cmp: Compare, s: seq<nat>, t: seq<nat>)
    requires TotalPreorder(cmp) && Stable(cmp, s, t)
    ensures s == [] <==> t == []
  {
    ClassOfFirst(cmp, s);
    ClassOfFirst(cmp, t);
  }

  /** There is only one stable way of putting items in order. */
  lemma {:induction false} StableOrderIsUnique(cmp: Compare, s: seq<nat>, t: seq<nat>)
    requires TotalPreorder(cmp) && Ordered(cmp, s) && Ordered(cmp, t) && Stable(cmp, s, t)
    ensures s == t
  {
    BothEmpty(cmp, s, t);
    if s != [] {
      FirstOfBoth(cmp, s, t);
      forall x ensures Class(cmp, x, t[1..]) == Class(cmp, x, s[1..]) {
        assert Class(cmp, x, t) == Class(cmp, x, s);
        var head := if Same(cmp, x, s[0]) then [s[0]] else [];
        assert Class(cmp, x, s)[|head|..] == Class(cmp, x, s[1..]);
        assert Class(cmp, x, t)[|head|..] == Class(cmp, x, t[1..]);
      }
      StableOrderIsUnique(cmp, s[1..], t[1..]);
      assert s == [s[0]] + s[1..] && t == [t[0]] + t[1..];
    }
  }

  // ----- on the heap -----

  ghost function At(s: seq<Link>, i: nat): Link? {
    if i < |s| then s[i] else null
  }

  /** The links of `s` from `lo` to `hi` still point along `s`. */
  ghost predicate Unread(s: seq<Link>, lo: nat, hi: nat)
    reads s
  {
    forall i {:trigger s[i].next} :: lo <= i < hi && i < |s| ==> s[i].next == At(s, i + 1)
  }

  /** `out` hangs together from `head` to `tail`, whose `next` is still open. */
  ghost predicate Emitted(out: seq<Link>, head: Link?, tail: Link?)
    reads out
  {
    && Distinct(out)
    && (if out == [] then head == null && tail == null else head == out[0] && tail == out[|out| - 1])
    && (forall i {:trigger out[i].prev} :: 0 <= i < |out| ==> out[i].prev == if i == 0 then null else out[i - 1])
    && (forall i {:trigger out[i].next} :: 0 <= i < |out| - 1 ==> out[i].next == out[i + 1])
  }

  /** `out` has the links of `s` that lie before `i`, or from `mid` to before `k`. */
  ghost predicate Taken(s: seq<Link>, out: seq<Link>, i: nat, mid: nat, k: nat) {
    && i <= mid <= k <= |s|
    && (forall j {:trigger out[j]} :: 0 <= j < |out| ==> out[j] in s[..i] || out[j] in s[mid..k])
    && (forall j {:trigger s[j]} :: 0 <= j < i || mid <= j < k ==> s[j] in out)
  }

  /** In the middle of a merge: the runs stand at `i` and `k`, the second began at `mid`. */
  ghost predicate Merging(s: seq<Link>, i: nat, mid: nat, k: nat, out: seq<Link>, head: Link?, tail: Link?)
    reads s, out
  {
    && Distinct(s) && Unread(s, i, mid) && Unread(s, k, |s|)
    && Emitted(out, head, tail) && Taken(s, out, i, mid, k)
  }

  /** The link `e` is hung behind the others. */
  method Append(e: Link, head: Link?, tail: Link?, ghost out: seq<Link>) returns (first: Link?)
    requires Emitted(out, head, tail) && e !in out
    modifies e`prev, (if tail == null then {} else {tail})`next
    ensures Emitted(out + [e], first, e)
    ensures tail != null ==> tail in out
  {
    first := head;
    if tail != null {
      tail.next := e;
    } else {
      first := e;
    }
    e.prev := tail;
  }

  method Emit(e: Link, head: Link?, tail: Link?, ghost s: seq<Link>, ghost i: nat, ghost mid: nat, ghost k: nat,
              ghost out: seq<Link>, ghost fromFirst: bool)
    returns (first: Link?)
    requires Merging(s, i, mid, k, out, head, tail)
    requires if fromFirst then i < mid && e == s[i] else k < |s| && e == s[k]
    modifies s`next, s`prev
    ensures Merging(s, if fromFirst then i + 1 else i, mid, if fromFirst then k else k + 1, out + [e], first, e)
  {
    assert forall j {:trigger s[j]} :: i <= j < mid || k <= j < |s| ==> s[j] !in out;
    first := Append(e, head, tail, out);
  }

  lemma KeysTail(s: seq<Link>, i: nat, hi: nat)
    requires i < hi <= |s|
    ensures Keys(s[i..hi]) != [] && Keys(s[i..hi])[0] == s[i].key && Keys(s[i..hi])[1..] == Keys(s[i + 1..hi])
  {}

  /** The link that is chosen is the one the merge puts first. */
  lemma Chosen(cmp: Compare, s: seq<Link>, i: nat, mid: nat, k: nat, hi: nat, out: seq<Link>, fromFirst: bool)
    requires i <= mid <= k <= hi <= |s|
    requires if fromFirst then i < mid && (k < hi ==> Before(cmp, s[i].key, s[k].key))
             else k < hi && (i < mid ==> !Before(cmp, s[i].key, s[k].key))
    ensures var e := if fromFirst then s[i] else s[k];
      Keys(out) + Merge(cmp, Keys(s[i..mid]), Keys(s[k..hi]))
      == Keys(out + [e])
         + Merge(cmp, Keys(s[if fromFirst then i + 1 else i..mid]), Keys(s[if fromFirst then k else k + 1..hi]))
  {
    if i < mid { KeysTail(s, i, mid); }
    if k < hi { KeysTail(s, k, hi); }
    var e := if fromFirst then s[i] else s[k];
    assert Keys(out + [e]) == Keys(out) + [e.key];
  }

  lemma OpenRuns(s: seq<Link>, a: nat, mid: nat, out: seq<Link>)
    requires a <= mid <= |s| && Taken(s, out, a, a, a)
    ensures Taken(s, out, a, mid, mid)
  {}

  lemma Closed(cmp: Compare, s: seq<Link>, mid: nat, hi: nat, all: seq<Link>)
    requires mid <= hi <= |s| && Taken(s, all, mid, mid, hi)
    ensures Taken(s, all, hi, hi, hi)
    ensures Keys(all) + Merge(cmp, Keys(s[mid..mid]), Keys(s[hi..hi])) == Keys(all)
  {
    assert s[..hi] == s[..mid] + s[mid..hi];
  }

  /** Two runs of `s`, from `a` and from `a + psize`, are merged behind `out`. */
  method MergeRuns(cmp: Compare, p: Link?, psize: nat, q: Link?, qsize: nat, head: Link?, tail: Link?,
                   ghost s: seq<Link>, ghost a: nat, ghost out: seq<Link>)
    returns (first: Link?, last: Link?, rest: Link?, ghost all: seq<Link>)
    requires a + psize <= |s| && p == At(s, a) && q == At(s, a + psize)
    requires Merging(s, a, a, a, out, head, tail)
    modifies s`next, s`prev
    ensures var hi := Min(a + psize + qsize, |s|);
      && rest == At(s, hi) && Merging(s, hi, hi, hi, all, first, last)
      && Keys(all) == Keys(out) + Merge(cmp, Keys(s[a..a + psize]), Keys(s[a + psize..hi]))
  {
    hide Emitted, Taken, Keys, Merge;
    ghost var (mid, hi) := (a + psize, Min(a + psize + qsize, |s|));
    ghost var (i, k) := (a, mid);
    var (pp, qq, ps, qs) := (p, q, psize, qsize);
    first, last, all := head, tail, out;
    OpenRuns(s, a, mid, out);
    while ps != 0 || (qs != 0 && qq != null)
      invariant a <= i <= mid && i + ps == mid && mid <= k <= hi && k - mid + qs == qsize
      invariant (ps != 0 ==> pp == At(s, i)) && qq == At(s, k)
      invariant Merging(s, i, mid, k, all, first, last)
      invariant Keys(all) + Merge(cmp, Keys(s[i..mid]), Keys(s[k..hi]))
             == Keys(out) + Merge(cmp, Keys(s[a..mid]), Keys(s[mid..hi]))
      decreases ps + qs
    {
      var e: Link;
      ghost var fromFirst := ps != 0 && (k == hi || Before(cmp, s[i].key, s[k].key));
      if ps == 0 {
        e, qq, qs := qq, qq.next, qs - 1;
      } else if qs == 0 || qq == null {
        e, pp, ps := pp, pp.next, ps - 1;
      } else if cmp(pp.key, qq.key) <= 0 {
        e, pp, ps := pp, pp.next, ps - 1;
      } else {
        e, qq, qs := qq, qq.next, qs - 1;
      }
      Chosen(cmp, s, i, mid, k, hi, all, fromFirst);
      first := Emit(e, first, last, s, i, mid, k, all, fromFirst);
      last, all := e, all + [e];
      i, k := if fromFirst then i + 1 else i, if fromFirst then k else k + 1;
    }
    rest := qq;
    Closed(cmp, s, mid, hi, all);
  }

  /** Steps over at most `insize` links from `p`. */
  method StepOver(p: Link, insize: nat, ghost s: seq<Link>, ghost a: nat) returns (q: Link?, psize: nat)
    requires a < |s| && p == s[a] && Unread(s, a, |s|) && insize > 0
    ensures psize == Min(insize, |s| - a) && q == At(s, a + psize)
  {
    q, psize := p, 0;
    var i := 0;
    while i < insize
      invariant i == psize <= insize && a + psize < |s| && q == s[a + psize]
    {
      psize := psize + 1;
      q := q.next;
      if q == null {
        break;
      }
      i := i + 1;
    }
  }

  lemma MergesFew(length: nat, n: nat)
    requires n > 0 && length > 0
    ensures Merges(length, n) <= 1 <==> length <= n + n
  {
    if length > n + n {
      assert Merges(length - (n + n), n) >= 1;
    }
  }

  lemma KeySlices(s: seq<Link>, a: nat, mid: nat, hi: nat)
    requires a <= mid <= hi <= |s|
    ensures var x := Keys(s[a..]);
      x[..mid - a] == Keys(s[a..mid]) && x[mid - a..hi - a] == Keys(s[mid..hi]) && x[hi - a..] == Keys(s[hi..])
  {}

  lemma PassStep(cmp: Compare, s: seq<Link>, a: nat, n: nat, out: seq<Link>, all: seq<Link>, mid: nat, hi: nat)
    requires a < |s| && n > 0 && mid == a + Min(n, |s| - a) && hi == Min(mid + n, |s|)
    requires Keys(all) == Keys(out) + Merge(cmp, Keys(s[a..mid]), Keys(s[mid..hi]))
    ensures Keys(all) + Pass(cmp, Keys(s[hi..]), n) == Keys(out) + Pass(cmp, Keys(s[a..]), n)
    ensures Merges(|s| - a, n) == 1 + Merges(|s| - hi, n)
  {
    hide Keys, Merge, Pass;
    KeySlices(s, a, mid, hi);
    PassUnfolds(cmp, Keys(s[a..]), n, mid - a, hi - a);
    Regroup(Keys(out), Merge(cmp, Keys(s[a..mid]), Keys(s[mid..hi])), Pass(cmp, Keys(s[hi..]), n));
  }

  lemma Regroup(a: seq<nat>, b: seq<nat>, c: seq<nat>)
    ensures a + b + c == a + (b + c)
  {}

  lemma PassUnfolds(cmp: Compare, x: seq<nat>, n: nat, mid: nat, hi: nat)
    requires x != [] && n > 0 && mid == Min(n, |x|) && hi == Min(n + n, |x|)
    ensures Pass(cmp, x, n) == Merge(cmp, x[..mid], x[mid..hi]) + Pass(cmp, x[hi..], n)
  {}

  /** One pass over the list: all its links are taken off and hung up again. */
  method OnePass(cmp: Compare, list: Link, insize: nat, ghost s: seq<Link>)
    returns (head: Link?, tail: Link?, nmerges: nat, ghost out: seq<Link>)
    requires Distinct(s) && s != [] && list == s[0] && Unread(s, 0, |s|) && insize > 0
    modifies s`next, s`prev
    ensures Emitted(out, head, tail) && Taken(s, out, |s|, |s|, |s|) && Unread(out, 0, |out|)
    ensures Keys(out) == Pass(cmp, Keys(s), insize) && nmerges == Merges(|s|, insize)
  {
    hide Merging, Emitted, Taken, Unread, Distinct, Merge, Merges, Pass, Keys;
    var p: Link? := list;
    ghost var a := 0;
    head, tail, nmerges, out := null, null, 0, [];
    NothingTaken(s);
    assert [] + Pass(cmp, Keys(s), insize) == Pass(cmp, Keys(s), insize);
    while p != null
      invariant a <= |s| && p == At(s, a) && Merging(s, a, a, a, out, head, tail)
      invariant Keys(out) + Pass(cmp, Keys(s[a..]), insize) == Pass(cmp, Keys(s), insize)
      invariant nmerges + Merges(|s| - a, insize) == Merges(|s|, insize)
      decreases |s| - a
    {
      nmerges := nmerges + 1;
      MergingParts(s, a, out, head, tail);
      var q, psize := StepOver(p, insize, s, a);
      ghost var all;
      ghost var was := out;
      head, tail, p, all := MergeRuns(cmp, p, psize, q, insize, head, tail, s, a, out);
      PassStep(cmp, s, a, insize, was, all, a + psize, Min(a + psize + insize, |s|));
      a := Min(a + psize + insize, |s|);
      out := all;
    }
    MergingParts(s, a, out, head, tail);
    NoMerges(insize);
    Terminate(s, head, tail, out);
  }

  method Terminate(ghost s: seq<Link>, head: Link?, tail: Link?, ghost out: seq<Link>)
    requires Emitted(out, head, tail) && Taken(s, out, |s|, |s|, |s|)
    modifies s`next
    ensures Emitted(out, head, tail) && Unread(out, 0, |out|)
  {
    if tail != null {
      assert tail == out[|out| - 1];
      tail.next := null;
    }
  }

  lemma NothingTaken(s: seq<Link>)
    requires Distinct(s) && Unread(s, 0, |s|)
    ensures Merging(s, 0, 0, 0, [], null, null)
    ensures Keys([]) == [] && s[0..] == s
  {}

  lemma NoMerges(n: nat)
    requires n > 0
    ensures Merges(0, n) == 0
  {}

  lemma MergingParts(s: seq<Link>, a: nat, out: seq<Link>, head: Link?, tail: Link?)
    requires Merging(s, a, a, a, out, head, tail)
    ensures Unread(s, a, |s|) && Emitted(out, head, tail) && Taken(s, out, a, a, a)
  {}

  /** HASH_SRT on a list that is not empty; `tail` becomes its last link. */
  method SortLinks(cmp: Compare, list: LinkList) returns (tail: Link?)
    requires list.Valid() && list.links != []
    modifies list, list.links`next, list.links`prev
    ensures list.Valid() && Keys(list.links) == Sorted(cmp, old(Keys(list.links)))
    ensures list.links != [] && tail == list.links[|list.links| - 1]
    ensures forall i {:trigger list.links[i]} :: 0 <= i < |list.links| ==> list.links[i] in old(list.links)
    ensures forall o: LinkList :: o != list && old(allocated(o)) && old(o.Valid()) ==> o.Valid()
    ensures forall o: Link {:trigger o.owner} :: old(allocated(o)) ==> o.owner == old(o.owner)
  {
    hide Keys, Pass, Merges, Sorted, SortFrom;
    ghost var all := list.links;
    SortedStarts(cmp, Keys(all));
    ghost var s := all;
    assert forall i {:trigger all[i]} :: 0 <= i < |all| ==> all[i].owner == list;
    var insize := 1;
    var looping := true;
    var head := list.first;
    tail := null;
    while looping
      invariant s != [] && |s| == |all| && Distinct(s) && head == s[0] && Unread(s, 0, |s|) && insize > 0
      invariant forall i {:trigger s[i]} :: 0 <= i < |s| ==> s[i] in all
      invariant if looping then SortFrom(cmp, Keys(s), insize) == Sorted(cmp, Keys(all))
                else Keys(s) == Sorted(cmp, Keys(all)) && Emitted(s, head, tail)
      invariant list.links == all
      decreases looping, if |all| > insize then |all| - insize else 0
    {
      var nmerges;
      ghost var out;
      head, tail, nmerges, out := OnePass(cmp, head, insize, s);
      MergesFew(|s|, insize);
      SortUnfolds(cmp, Keys(s), insize);
      AllTaken(s, out, all);
      s := out;
      if nmerges <= 1 {
        looping := false;
      }
      insize := insize * 2;
    }
    list.first, list.links := head, s;
    assert forall i {:trigger s[i].owner} :: 0 <= i < |s| ==> s[i] in all && s[i].owner == list;
  }

  lemma SortUnfolds(cmp: Compare, s: seq<nat>, n: nat)
    requires n > 0
    ensures SortFrom(cmp, s, n) == if |s| <= n + n then Pass(cmp, s, n) else SortFrom(cmp, Pass(cmp, s, n), n * 2)
  {}

  lemma SortedStarts(cmp: Compare, s: seq<nat>)
    ensures Sorted(cmp, s) == SortFrom(cmp, s, 1)
  {}

  lemma AllTaken(s: seq<Link>, out: seq<Link>, all: seq<Link>)
    requires Taken(s, out, |s|, |s|, |s|) && forall i {:trigger s[i]} :: 0 <= i < |s| ==> s[i] in all
    ensures forall i {:trigger out[i]} :: 0 <= i < |out| ==> out[i] in all
  {}
}
