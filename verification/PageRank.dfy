/** The reclaim scan of the PageRank policy while `safe_to_free` is set: pages in
    two windows around it are kept, the others go in FIFO order. */
module PageRank {
  import opened Machine
  import opened Fifo
  import opened Reclaim
  import opened Scan
  import P = Pager
  import SC = SecondChance

  const BELOW: nat := 32 * 4096 * 4096
  const MARGIN: nat := 512 * 4096

  /** `safe_to_free`, the window size, and where each page lies. */
  datatype Window = Window(safe: nat, size: nat, vas: map<nat, nat>)

  predicate InWindow(va: nat, safe: nat, size: nat) {
    (va < safe && safe - va < BELOW) || (va > safe && va - safe < size + MARGIN)
  }

  predicate Protected(w: Window, p: nat) {
    p in w.vas && InWindow(w.vas[p], w.safe, w.size)
  }

  function Inspect(x: SC.Policy, w: Window): SC.Policy
    requires x.inactive != []
  {
    var (p, rest) := (x.inactive[0], x.inactive[1..]);
    if Protected(w, p) then x.(inactive := rest + [p]) else x.(inactive := rest, eviction := x.eviction + [p])
  }

  function ScanFrom(x: SC.Policy, w: Window, nr: nat, ret: nat, tries: nat): SC.Result
    decreases nr * 100 - tries
  {
    if ret < nr && x.inactive != [] && tries < nr * 100 then
      ScanFrom(Inspect(x, w), w, nr, if Protected(w, x.inactive[0]) then ret else ret + 1, tries + 1)
    else SC.Result(x, ret)
  }

  function Shrink(x: SC.Policy, w: Window, nr: nat): SC.Result {
    ScanFrom(x, w, SC.Clamp(nr, |x.inactive|), 0, 0)
  }

  // ----- what the scan amounts to -----

  /** The pages of `l` outside the windows, oldest first. */
  function Outside(w: Window, l: seq<nat>): seq<nat> {
    if l == [] then [] else (if Protected(w, l[0]) then [] else [l[0]]) + Outside(w, l[1..])
  }

  /** `l` without the first `k` pages outside the windows. */
  function Kept(w: Window, l: seq<nat>, k: nat): seq<nat> {
    if l == [] || k == 0 then l
    else if Protected(w, l[0]) then [l[0]] + Kept(w, l[1..], k)
    else Kept(w, l[1..], k - 1)
  }

  ghost predicate Rotation(a: seq<nat>, b: seq<nat>) {
    exists j :: 0 <= j <= |b| && a == b[j..] + b[..j]
  }

  lemma RotateOne(a: seq<nat>, b: seq<nat>)
    requires b != [] && Rotation(a, b[1..] + [b[0]])
    ensures Rotation(a, b)
  {
    var c := b[1..] + [b[0]];
    var j :| 0 <= j <= |c| && a == c[j..] + c[..j];
    if j == |b| {
      assert a == b[1..] + b[..1];
    } else {
      assert c[j..] == b[j + 1..] + [b[0]] && c[..j] == b[1..j + 1];
      assert [b[0]] + b[1..j + 1] == b[..j + 1];
      assert a == b[j + 1..] + b[..j + 1];
    }
  }

  /** Once only protected pages are left, they are turned round and none goes. */
  lemma {:induction false} OnlyProtected(x: SC.Policy, w: Window, nr: nat, ret: nat, tries: nat)
    requires forall p :: p in x.inactive ==> Protected(w, p)
    ensures var r := ScanFrom(x, w, nr, ret, tries);
      r.count == ret && r.policy == x.(inactive := r.policy.inactive) && Rotation(r.policy.inactive, x.inactive)
    decreases nr * 100 - tries
  {
    if ret < nr && x.inactive != [] && tries < nr * 100 {
      var y := Inspect(x, w);
      assert x.inactive[0] in x.inactive;
      OnlyProtected(y, w, nr, ret, tries + 1);
      RotateOne(ScanFrom(y, w, nr, ret, tries + 1).policy.inactive, x.inactive);
    } else {
      assert x.inactive == x.inactive[0..] + x.inactive[..0];
    }
  }

  /** What the scan of `rest` then `done`, for `left` more pages, makes of `x`, where the
      pages of `done` were looked at and kept. */
  ghost predicate Passed(x: SC.Policy, w: Window, rest: seq<nat>, done: seq<nat>, left: nat, y: SC.Policy) {
    var out := Outside(w, rest);
    var k := SC.Min(left, |out|);
    && y == x.(inactive := y.inactive, eviction := x.eviction + out[..k])
    && Rotation(y.inactive, done + Kept(w, rest, k))
  }

  lemma PassedNone(x: SC.Policy, w: Window, rest: seq<nat>, done: seq<nat>)
    requires x.inactive == rest + done
    ensures Passed(x, w, rest, done, 0, x)
  {
    assert rest + done == (done + rest)[|done|..] + (done + rest)[..|done|];
    assert x.eviction + [] == x.eviction;
  }

  lemma PassedAll(x: SC.Policy, w: Window, done: seq<nat>, left: nat, y: SC.Policy)
    requires y == x.(inactive := y.inactive) && Rotation(y.inactive, done)
    ensures Passed(x, w, [], done, left, y)
  {
    assert done + [] == done && x.eviction + [] == x.eviction;
  }

  lemma PassedKept(x: SC.Policy, w: Window, rest: seq<nat>, done: seq<nat>, left: nat, x': SC.Policy, y: SC.Policy)
    requires rest != [] && Protected(w, rest[0]) && x' == x.(inactive := x'.inactive)
    requires Passed(x', w, rest[1..], done + [rest[0]], left, y)
    ensures Passed(x, w, rest, done, left, y)
  {
    hide Rotation, Protected;
    KeptProtected(w, rest, SC.Min(left, |Outside(w, rest)|), done);
    assert [] + Outside(w, rest[1..]) == Outside(w, rest[1..]);
  }

  lemma PassedGone(x: SC.Policy, w: Window, rest: seq<nat>, done: seq<nat>, left: nat, x': SC.Policy, y: SC.Policy)
    requires rest != [] && !Protected(w, rest[0]) && left > 0
    requires x' == x.(inactive := x'.inactive, eviction := x.eviction + [rest[0]])
    requires Passed(x', w, rest[1..], done, left - 1, y)
    ensures Passed(x, w, rest, done, left, y)
  {
    hide Rotation, Protected;
    var (p, out) := (rest[0], Outside(w, rest[1..]));
    var k := SC.Min(left - 1, |out|);
    assert ([p] + out)[..k + 1] == [p] + out[..k];
    assert x.eviction + ([p] + out[..k]) == x.eviction + [p] + out[..k];
  }

  lemma {:induction false} FirstPass(x: SC.Policy, w: Window, rest: seq<nat>, done: seq<nat>, nr: nat, ret: nat,
                                     tries: nat)
    requires x.inactive == rest + done && (forall p :: p in done ==> Protected(w, p))
    requires ret <= nr && tries + |rest| <= nr * 100
    ensures ScanFrom(x, w, nr, ret, tries).count == ret + SC.Min(nr - ret, |Outside(w, rest)|)
    ensures Passed(x, w, rest, done, nr - ret, ScanFrom(x, w, nr, ret, tries).policy)
    decreases |rest|
  {
    hide Passed, Rotation, Kept;
    if ret == nr {
      PassedNone(x, w, rest, done);
    } else if rest == [] {
      assert rest + done == done;
      OnlyProtected(x, w, nr, ret, tries);
      PassedAll(x, w, done, nr - ret, ScanFrom(x, w, nr, ret, tries).policy);
    } else {
      var p := rest[0];
      var y := Inspect(x, w);
      assert x.inactive[0] == p && x.inactive[1..] == rest[1..] + done;
      if Protected(w, p) {
        assert y.inactive == rest[1..] + (done + [p]);
        FirstPass(y, w, rest[1..], done + [p], nr, ret, tries + 1);
        PassedKept(x, w, rest, done, nr - ret, y, ScanFrom(y, w, nr, ret, tries + 1).policy);
      } else {
        FirstPass(y, w, rest[1..], done, nr, ret + 1, tries + 1);
        PassedGone(x, w, rest, done, nr - ret, y, ScanFrom(y, w, nr, ret + 1, tries + 1).policy);
      }
    }
  }

  lemma KeptProtected(w: Window, rest: seq<nat>, k: nat, done: seq<nat>)
    requires rest != [] && Protected(w, rest[0])
    ensures done + Kept(w, rest, k) == done + [rest[0]] + Kept(w, rest[1..], k)
  {
    if k == 0 {
      assert rest == [rest[0]] + rest[1..];
    }
  }

  lemma {:induction false} KeptInside(w: Window, l: seq<nat>, k: nat)
    requires k >= |Outside(w, l)|
    ensures forall p :: p in Kept(w, l, k) ==> Protected(w, p)
  {
    if l != [] && k != 0 {
      KeptInside(w, l[1..], if Protected(w, l[0]) then k else k - 1);
    } else if l != [] {
      OutsideIs(w, l);
    }
  }

  lemma RotationHas(a: seq<nat>, b: seq<nat>)
    requires Rotation(a, b)
    ensures forall p :: p in a ==> p in b
  {
    var j :| 0 <= j <= |b| && a == b[j..] + b[..j];
  }

  /** With n <= 100r the scan evicts exactly min(r, pages outside the windows), the
      oldest of them; what is kept is a rotation.  None goes that lies within 512 MiB below
      `safe_to_free` or within the window size and 2 MiB above it, and if fewer than r
      go, every page left lies there. */
  lemma WindowScanIsExact(x: SC.Policy, w: Window, nr: nat)
    requires |x.inactive| <= 100 * (if nr == 0 || nr > |x.inactive| then |x.inactive| else nr)
    ensures var (r, out) := (Shrink(x, w, nr), Outside(w, x.inactive));
      && r.count == SC.Min(if nr == 0 || nr > |x.inactive| then |x.inactive| else nr, |out|)
      && r.policy == x.(inactive := r.policy.inactive, eviction := x.eviction + out[..r.count])
      && Rotation(r.policy.inactive, Kept(w, x.inactive, r.count))
    ensures forall p :: p in Outside(w, x.inactive)[..Shrink(x, w, nr).count] && p in w.vas ==>
      && !(w.safe - 536870912 < w.vas[p] < w.safe) && !(w.safe < w.vas[p] < w.safe + w.size + 2097152)
    ensures Shrink(x, w, nr).count < (if nr == 0 || nr > |x.inactive| then |x.inactive| else nr) ==>
      forall p :: p in Shrink(x, w, nr).policy.inactive ==>
        && p in w.vas
        && (w.safe - 536870912 < w.vas[p] < w.safe || w.safe < w.vas[p] < w.safe + w.size + 2097152)
  {
    FirstPass(x, w, x.inactive, [], SC.Clamp(nr, |x.inactive|), 0, 0);
    assert x.inactive + [] == x.inactive;
    var r := Shrink(x, w, nr);
    var (out, kept) := (Outside(w, x.inactive), Kept(w, x.inactive, r.count));
    assert [] + kept == kept;
    forall p | p in out[..r.count] ensures p in out {}
    OutsideIs(w, x.inactive);
    if r.count < SC.Clamp(nr, |x.inactive|) {
      KeptInside(w, x.inactive, r.count);
      RotationHas(r.policy.inactive, kept);
    }
  }

  /** The pages that may go are those in neither window. */
  lemma {:induction false} OutsideIs(w: Window, l: seq<nat>)
    ensures forall p :: p in Outside(w, l) <==>
      && p in l
      && (p in w.vas ==>
            !(w.safe - 536870912 < w.vas[p] < w.safe) && !(w.safe < w.vas[p] < w.safe + w.size + 2097152))
  {
    if l != [] {
      OutsideIs(w, l[1..]);
    }
  }

  /** They come in the order of the list. */
  lemma {:induction false} OutsideInOrder(w: Window, a: seq<nat>, b: seq<nat>)
    ensures Outside(w, a + b) == Outside(w, a) + Outside(w, b)
  {
    if a == [] {
      assert a + b == b;
    } else {
      assert (a + b)[1..] == a[1..] + b;
      OutsideInOrder(w, a[1..], b);
    }
  }

  // ----- on the heap -----

  lemma SameCounts(s: State, x: SC.Policy, y: SC.Policy)
    requires y == x.(counts := y.counts) && forall p :: SC.Count(y, p) == SC.Count(x, p)
    ensures Adopt(s, y) == Adopt(s, x) && (Reached(s, x) <==> Reached(s, y))
  {
    assert SC.Pages(y) == SC.Pages(x);
    forall p ensures QueueIn(y, p) == QueueIn(x, p) {}
    assert Adopt(s, y).desc == Adopt(s, x).desc;
  }

  lemma InspectIs(x: SC.Policy, w: Window)
    requires x.inactive != []
    ensures var (p, q) := (x.inactive[0], if Protected(w, x.inactive[0]) then Inactive else Eviction);
      var y := MoveHead(x, Inactive, q, SC.Count(x, p), false);
      && y == Inspect(x, w).(counts := y.counts) && forall r :: SC.Count(y, r) == SC.Count(Inspect(x, w), r)
  {}

  lemma NoStamp(t: State, from: Queue, to: Queue, p: nat)
    requires p in t.desc
    ensures Enqueue(Detach(t, from, p), to, p) == MovePage(t, from, to, p, t.desc[p].naccesses, false)
  {
    var u := Detach(t, from, p);
    assert u.desc[p := u.desc[p].(naccesses := t.desc[p].naccesses)] == u.desc;
  }

  lemma InspectMoves(s: State, x: SC.Policy, w: Window)
    requires Inv(s) && Reached(s, x) && x.inactive != []
    ensures var (t, p, q) := (Adopt(s, x), x.inactive[0], if Protected(w, x.inactive[0]) then Inactive else Eviction);
      p in t.desc && Enqueue(Detach(t, Inactive, p), q, p) == Adopt(s, Inspect(x, w))
    ensures Reached(s, Inspect(x, w))
  {
    hide Inv, Reached, Adopt, MovePage, MoveHead, Inspect;
    var (t, p, q) := (Adopt(s, x), x.inactive[0], if Protected(w, x.inactive[0]) then Inactive else Eviction);
    AdoptKeys(s, x);
    HeadFacts(s, x, Inactive);
    MoveIs(s, x, Inactive, q, SC.Count(x, p), false);
    NoStamp(t, Inactive, q, p);
    InspectIs(x, w);
    SameCounts(s, Inspect(x, w), MoveHead(x, Inactive, q, SC.Count(x, p), false));
  }

  /** The window says of each page where it lies. */
  ghost predicate Locates(w: Window, s: State) {
    forall p :: p in s.desc ==> p in w.vas && w.vas[p] == s.desc[p].va
  }

  /** The body of the scan's loop. */
  method InspectPage(g: P.Pager, safe: nat, size: nat, ghost w: Window, ghost s: State, ghost x: SC.Policy) returns (evicted: bool)
    requires g.Valid() && Follows(g, s, x) && x.inactive != [] && Locates(w, s) && w.safe == safe && w.size == size
    modifies g.Repr()
    ensures g.Valid() && g.pages == old(g.pages) && Follows(g, s, Inspect(x, w))
    ensures evicted <==> !Protected(w, x.inactive[0])
  {
    hide P.Pager.Valid, Inv, Reached, Adopt, Inspect, InWindow;
    InspectSetup(s, x);
    HeadFacts(s, x, Inactive);
    InspectMoves(s, x, w);
    var page := g.Dequeue(Inactive);
    g.Look(page);
    evicted := !InWindow(page.va, safe, size);
    if evicted {
      g.Enqueue(Eviction, page);
    } else {
      g.Enqueue(Inactive, page);
    }
  }

  /** The branch of `shrink_inactive_list` for a set `safe_to_free`. */
  method ShrinkInactiveWindow(g: P.Pager, nr: nat, safe: nat, size: nat, ghost w: Window) returns (ret: nat)
    requires g.Valid() && Inv(g.state) && Locates(w, g.state) && w.safe == safe && w.size == size
    modifies g.Repr()
    ensures g.Valid() && g.pages == old(g.pages)
    ensures var r := Shrink(PolicyOf(old(g.state)), w, nr);
      g.state == Adopt(old(g.state), r.policy) && ret == r.count
  {
    hide P.Pager.Valid, Inv, Reached, Adopt, Inspect, Locates;
    ghost var s := g.state;
    ghost var x := PolicyOf(s);
    ghost var y := x;
    ReachedStart(s);
    g.Entries(Inactive);
    ListsOf(s, x);
    var want := nr;
    if nr == 0 || nr > g.inactiveList.numentries {
      want := g.inactiveList.numentries;
    }
    var tries := 0;
    ret := 0;
    while ret < want && g.inactiveList.numentries > 0 && tries < want * 100
      invariant g.Valid() && g.pages == old(g.pages) && Follows(g, s, y)
      invariant tries <= want * 100 && ScanFrom(y, w, want, ret, tries) == Shrink(x, w, nr)
      decreases want * 100 - tries
    {
      g.Entries(Inactive);
      ListsOf(s, y);
      var evicted := InspectPage(g, safe, size, w, s, y);
      if evicted {
        ret := ret + 1;
      }
      tries := tries + 1;
      y := Inspect(y, w);
    }
    g.Entries(Inactive);
    ListsOf(s, y);
  }
}
