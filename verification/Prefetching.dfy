/** Batch prefetch: several reads in flight while frames are found for them. */
module Prefetching {
  import opened Machine
  import opened Fetch
  import opened SwapIn
  import opened Faults

  const CORE_PREFETCH_RATE: nat := 32

  datatype Gathered = Gathered(state: State, pages: seq<nat>)

  lemma SwappedOutPage(s: State, va: nat)
    requires Inv(s) && va in s.index
    ensures s.index[va] in s.desc
    ensures var d := s.desc[s.index[va]];
      !d.migrating && d.swappedOut <==> SwappedOut(s, s.index[va])
  {
    assert Indexed(s, va) && RoleOk(s.desc[s.index[va]]);
  }

  /** The swapped-out pages right after `base`, up to `n` and up to the first that
      is not, are taken off their list for reading. */
  ghost function Gather(s: State, base: nat, n: nat): (r: Gathered)
    requires Inv(s)
    ensures Inv(r.state)
    decreases n
  {
    var va := base + PAGE_SIZE;
    if n == 0 || va !in s.index then Gathered(s, [])
    else
      SwappedOutPage(s, va);
      var p := s.index[va];
      if s.desc[p].migrating || !s.desc[p].swappedOut then Gathered(s, [])
      else
        StartReadKeeps(s, p);
        var rest := Gather(StartRead(s, p), va, n - 1);
        Gathered(rest.state, [p] + rest.pages)
  }

  datatype Many = All(states: seq<State>, frames: seq<nat>) | Short(why: Outcome)

  /** One frame after the other; the states in between are kept, since a read may
      complete in any of them. */
  ghost function FetchMany(s: State, n: nat): (r: Many)
    requires Inv(s)
    ensures r.All? ==> |r.frames| == n && |r.states| == n + 1 && r.states[0] == s
    decreases n
  {
    if n == 0 then All([s], [])
    else
      var f := PageFault(s);
      if !f.Got? then Short(f)
      else
        PageFaultKeeps(s);
        var rest := FetchMany(f.state, n - 1);
        if rest.Short? then rest else All([s] + rest.states, [f.frame] + rest.frames)
  }

  function At<T>(xs: seq<T>, i: nat, default: T): T {
    if i < |xs| then xs[i] else default
  }

  /** Buffer `i` holds what the slot of page `i` held when read `i` completed:
      after `whens[i]` of the frames had been found. */
  function Buffers(states: seq<State>, pages: seq<nat>, whens: seq<nat>): (r: seq<Bytes>)
    requires states != []
    ensures |r| == |pages|
  {
    seq(|pages|, i requires 0 <= i < |pages| =>
      var w := At(whens, i, 0);
      Content(states[if w < |states| then w else |states| - 1], pages[i]))
  }

  ghost predicate AllLoaned(s: State, ps: seq<nat>, fs: seq<nat>) {
    && |ps| == |fs|
    && (forall i :: 0 <= i < |ps| ==> Loaned(s, ps[i], fs[i]))
    && NoDup(ps) && NoDup(fs)
  }

  ghost function FinishAll(s: State, ps: seq<nat>, fs: seq<nat>, buffers: seq<Bytes>, bits: seq<Bits>): (t: State)
    requires AllLoaned(s, ps, fs) && |buffers| == |ps|
    decreases |ps|
  {
    if ps == [] then s
    else
      assert Loaned(s, ps[0], fs[0]);
      FinishFirst(s, ps, fs, buffers[0], At(bits, 0, Bits(false, false)));
      FinishAll(FinishRead(s, ps[0], fs[0], buffers[0], At(bits, 0, Bits(false, false))),
                ps[1..], fs[1..], buffers[1..], if bits == [] then [] else bits[1..])
  }

  lemma LoanedApart(s: State, p: nat, f: nat, p': nat, f': nat, bytes: Bytes, bits: Bits)
    requires Loaned(s, p, f) && Loaned(s, p', f') && p != p' && f != f'
    ensures Loaned(FinishRead(s, p, f, bytes, bits), p', f')
  {}

  lemma FinishFirst(s: State, ps: seq<nat>, fs: seq<nat>, bytes: Bytes, bits: Bits)
    requires AllLoaned(s, ps, fs) && ps != []
    ensures Loaned(s, ps[0], fs[0])
    ensures AllLoaned(FinishRead(s, ps[0], fs[0], bytes, bits), ps[1..], fs[1..])
  {
    hide FinishRead;
    forall i | 0 <= i < |ps[1..]|
      ensures Loaned(FinishRead(s, ps[0], fs[0], bytes, bits), ps[1..][i], fs[1..][i])
    {
      assert Loaned(s, ps[0], fs[0]) && Loaned(s, ps[i + 1], fs[i + 1]);
      LoanedApart(s, ps[0], fs[0], ps[i + 1], fs[i + 1], bytes, bits);
    }
  }

  lemma {:induction false} GatherKeeps(s: State, base: nat, n: nat, loan: set<nat>)
    requires Inv(s) && Lends(s, loan)
    ensures var r := Gather(s, base, n);
      && SameForUser(s, r.state)
      && KeepsLoans(s, r.state)
      && NoDup(r.pages) && |r.pages| <= n
      && Lends(r.state, loan + SetOf(r.pages))
      && forall p :: p in r.pages ==> p !in loan && p in r.state.desc && Swapped(r.state.desc[p])
    decreases n
  {
    hide Inv, StartRead, SameForUser;
    var va := base + PAGE_SIZE;
    SameForUserRefl(s);
    if n != 0 && va in s.index {
      SwappedOutPage(s, va);
      var p := s.index[va];
      if !s.desc[p].migrating && s.desc[p].swappedOut {
        var t := StartRead(s, p);
        StartReadKeeps(s, p);
        StartReadVa(s, p);
        StartLends(s, p, loan);
        GatherKeeps(t, va, n - 1, loan + {p});
        var rest := Gather(t, va, n - 1);
        SameForUserTrans(s, t, rest.state);
        GatherStep(s, t, rest, p, loan);
      } else {
        assert loan + SetOf([]) == loan;
      }
    } else {
      assert loan + SetOf([]) == loan;
    }
  }

  lemma SameForUserRefl(s: State)
    ensures SameForUser(s, s) && KeepsLoans(s, s)
  {}

  lemma GatherStep(s: State, t: State, rest: Gathered, p: nat, loan: set<nat>)
    requires Lends(s, loan) && p !in loan && Lends(t, loan + {p}) && KeepsLoans(s, t) && KeepsLoans(t, rest.state)
    requires p in t.desc && t.desc[p].list == None && Swapped(t.desc[p])
    requires NoDup(rest.pages) && Lends(rest.state, loan + {p} + SetOf(rest.pages))
    requires forall q :: q in rest.pages ==> q !in loan + {p} && q in rest.state.desc && Swapped(rest.state.desc[q])
    ensures var ps := [p] + rest.pages;
      && NoDup(ps) && KeepsLoans(s, rest.state)
      && Lends(rest.state, loan + SetOf(ps))
      && forall q :: q in ps ==> q !in loan && q in rest.state.desc && Swapped(rest.state.desc[q])
  {
    assert loan + {p} + SetOf(rest.pages) == loan + SetOf([p] + rest.pages);
  }

  // ----- reads that overlap evictions -----

  /** Every state on the way shows the user the same, and has the same loans of
      before; the frames found are new, free and distinct. */
  ghost predicate Steady(s: State, r: Many, loan: set<nat>) {
    && r.All?
    && |r.states| == |r.frames| + 1
    && (forall i :: 0 <= i < |r.states| ==> SameForUser(s, r.states[i]) && KeepsLoans(s, r.states[i]))
    && var t := r.states[|r.frames|];
    && Inv(t)
    && Lends(t, loan + SetOf(r.frames))
    && NoDup(r.frames)
    && (forall i :: 0 <= i < |r.frames| ==>
          r.frames[i] !in loan && r.frames[i] in t.desc && FreeFrame(t.desc[r.frames[i]]))
  }

  lemma {:induction false} FetchManyKeeps(s: State, n: nat, loan: set<nat>)
    requires Inv(s) && Lends(s, loan) && FetchMany(s, n).All?
    ensures Steady(s, FetchMany(s, n), loan)
    decreases n
  {
    hide Inv, PageFault, SameForUser, KeepsLoans;
    SameForUserRefl(s);
    if n == 0 {
      assert loan + SetOf([]) == loan;
    } else {
      PageFaultKeeps(s);
      var f := PageFault(s);
      ServedLends(s, f.state, f.frame, loan);
      FetchManyKeeps(f.state, n - 1, loan + {f.frame});
      SteadyStep(s, f.state, f.frame, FetchMany(f.state, n - 1), loan);
    }
  }

  lemma SteadyStep(s: State, t: State, f: nat, rest: Many, loan: set<nat>)
    requires Served(s, t, f) && f !in loan && Lends(t, loan + {f}) && Steady(t, rest, loan + {f})
    ensures Steady(s, All([s] + rest.states, [f] + rest.frames), loan)
  {
    hide Inv, SameForUser, ListsOk, RolesOk, PairsOk, PlacesOk, IndexOk, MemoryOk;
    var r := All([s] + rest.states, [f] + rest.frames);
    SameForUserRefl(s);
    forall i | 0 <= i < |r.states| ensures SameForUser(s, r.states[i]) && KeepsLoans(s, r.states[i]) {
      if i > 0 {
        assert r.states[i] == rest.states[i - 1];
        SameForUserTrans(s, t, rest.states[i - 1]);
      }
    }
    var u := rest.states[|rest.frames|];
    assert r.states[|r.frames|] == u;
    assert u.desc[f] == t.desc[f];
    assert loan + {f} + SetOf(rest.frames) == loan + SetOf(r.frames);
  }

  /** Whenever a read completes, its buffer holds what the slot held at submission:
      no eviction in between has touched the slot of a page being read. */
  lemma OverlappedReads(s: State, n: nat, ps: seq<nat>, whens: seq<nat>, loan: set<nat>)
    requires Inv(s) && Lends(s, loan) && FetchMany(s, n).All?
    requires forall p :: p in ps ==> p in s.desc && Swapped(s.desc[p])
    ensures Buffers(FetchMany(s, n).states, ps, whens) == seq(|ps|, i requires 0 <= i < |ps| => Content(s, ps[i]))
  {
    hide FetchMany, SameForUser, Content;
    FetchManyKeeps(s, n, loan);
    var r := FetchMany(s, n);
    forall i | 0 <= i < |ps| ensures Buffers(r.states, ps, whens)[i] == Content(s, ps[i]) {
      var w := At(whens, i, 0);
      var k := if w < |r.states| then w else |r.states| - 1;
      assert SameForUser(s, r.states[k]);
      assert ps[i] in s.desc && Swapped(s.desc[ps[i]]);
      SlotUntouched(s, r.states[k], ps[i]);
    }
  }

  // ----- mapping the pages -----

  ghost predicate Delivered(s: State, ps: seq<nat>, buffers: seq<Bytes>) {
    |buffers| == |ps| && forall i :: 0 <= i < |ps| ==> buffers[i] == Content(s, ps[i])
  }

  lemma DeliveredRest(s: State, ps: seq<nat>, fs: seq<nat>, buffers: seq<Bytes>, bits: Bits)
    requires Inv(s) && AllLoaned(s, ps, fs) && ps != [] && Delivered(s, ps, buffers)
    ensures Loaned(s, ps[0], fs[0])
    ensures Delivered(FinishRead(s, ps[0], fs[0], buffers[0], bits), ps[1..], buffers[1..])
  {
    hide FinishRead, Inv, Content, ListsOk, RolesOk, PairsOk;
    InvParts(s);
    assert Loaned(s, ps[0], fs[0]);
    var t := FinishRead(s, ps[0], fs[0], buffers[0], bits);
    forall i | 0 <= i < |ps[1..]| ensures buffers[1..][i] == Content(t, ps[1..][i]) {
      assert Loaned(s, ps[i + 1], fs[i + 1]);
      FinishContent(s, ps[0], fs[0], buffers[0], bits, ps[i + 1]);
    }
  }

  lemma {:induction false} FinishAllKeeps(s: State, ps: seq<nat>, fs: seq<nat>, buffers: seq<Bytes>, bits: seq<Bits>,
                                          loan: set<nat>)
    requires Inv(s) && AllLoaned(s, ps, fs) && Delivered(s, ps, buffers) && Lends(s, loan)
    ensures var t := FinishAll(s, ps, fs, buffers, bits);
      Inv(t) && SameForUser(s, t) && Lends(t, loan - SetOf(ps) - SetOf(fs))
    decreases |ps|
  {
    hide FinishRead, Inv, Content, SameForUser;
    SameForUserRefl(s);
    if ps == [] {
      assert loan - SetOf(ps) - SetOf(fs) == loan;
    } else {
      var b := At(bits, 0, Bits(false, false));
      FinishFirst(s, ps, fs, buffers[0], b);
      FinishKeeps(s, ps[0], fs[0], buffers[0], b);
      FinishSettles(s, ps[0], fs[0], buffers[0], b, loan);
      DeliveredRest(s, ps, fs, buffers, b);
      var t := FinishRead(s, ps[0], fs[0], buffers[0], b);
      var bits' := if bits == [] then [] else bits[1..];
      FinishAllKeeps(t, ps[1..], fs[1..], buffers[1..], bits', loan - {ps[0], fs[0]});
      SameForUserTrans(s, t, FinishAll(t, ps[1..], fs[1..], buffers[1..], bits'));
      assert loan - {ps[0], fs[0]} - SetOf(ps[1..]) - SetOf(fs[1..]) == loan - SetOf(ps) - SetOf(fs);
    }
  }

  // ----- core_try_prefetch -----

  lemma ReadyToFinish(s: State, g: Gathered, r: Many)
    requires r.All? && NoDup(g.pages) && |g.pages| == |r.frames|
    requires forall p :: p in g.pages ==> p in g.state.desc && Swapped(g.state.desc[p])
    requires Lends(g.state, SetOf(g.pages)) && Steady(g.state, r, SetOf(g.pages))
    ensures AllLoaned(r.states[|r.frames|], g.pages, r.frames)
  {
    hide Inv, SameForUser;
    var t := r.states[|r.frames|];
    assert KeepsLoans(g.state, t);
    forall i | 0 <= i < |g.pages| ensures Loaned(t, g.pages[i], r.frames[i]) {
      var (p, f) := (g.pages[i], r.frames[i]);
      assert p in SetOf(g.pages) && f in SetOf(r.frames);
      assert g.state.desc[p].list == None;
    }
  }

  /** The whole prefetch, for any times at which the reads complete. */
  ghost function Prefetch(s: State, base: nat, whens: seq<nat>, bits: seq<Bits>): (r: Result)
    requires Quiescent(s)
  {
    var g := Gather(s, base, CORE_PREFETCH_RATE);
    var r := FetchMany(g.state, |g.pages|);
    if r.Short? then Failed(r.why)
    else
      PrefetchReady(s, base);
      Ok(FinishAll(r.states[|r.frames|], g.pages, r.frames, Buffers(r.states, g.pages, whens), bits))
  }

  lemma PrefetchReady(s: State, base: nat)
    requires Quiescent(s)
    ensures var g := Gather(s, base, CORE_PREFETCH_RATE);
      var r := FetchMany(g.state, |g.pages|);
      && SameForUser(s, g.state) && Lends(g.state, SetOf(g.pages))
      && (forall p :: p in g.pages ==> p in g.state.desc && Swapped(g.state.desc[p]))
      && (r.All? ==> Steady(g.state, r, SetOf(g.pages)) && AllLoaned(r.states[|r.frames|], g.pages, r.frames))
  {
    hide FetchMany, Inv, SameForUser, Steady;
    assert Lends(s, {});
    GatherKeeps(s, base, CORE_PREFETCH_RATE, {});
    var g := Gather(s, base, CORE_PREFETCH_RATE);
    assert {} + SetOf(g.pages) == SetOf(g.pages);
    if FetchMany(g.state, |g.pages|).All? {
      FetchManyKeeps(g.state, |g.pages|, SetOf(g.pages));
      ReadyToFinish(g.state, g, FetchMany(g.state, |g.pages|));
    }
  }

  lemma PrefetchBuffers(s: State, base: nat, whens: seq<nat>)
    requires Quiescent(s)
    ensures var g := Gather(s, base, CORE_PREFETCH_RATE);
      var r := FetchMany(g.state, |g.pages|);
      r.All? ==> Delivered(r.states[|r.frames|], g.pages, Buffers(r.states, g.pages, whens))
  {
    hide FetchMany, Inv, SameForUser, Buffers, Content, AllLoaned, KeepsLoans;
    PrefetchReady(s, base);
    var g := Gather(s, base, CORE_PREFETCH_RATE);
    var r := FetchMany(g.state, |g.pages|);
    if r.All? {
      OverlappedReads(g.state, |g.pages|, g.pages, whens, SetOf(g.pages));
      var t := r.states[|r.frames|];
      forall i | 0 <= i < |g.pages| ensures Content(t, g.pages[i]) == Content(g.state, g.pages[i]) {
        assert g.pages[i] in g.pages;
        SlotUntouched(g.state, t, g.pages[i]);
      }
    }
  }

  /** A prefetch is invisible: every page it maps holds its own contents, for every
      order of completions, and nothing stays lent out. */
  lemma PrefetchKeeps(s: State, base: nat, whens: seq<nat>, bits: seq<Bits>)
    requires Quiescent(s) && Prefetch(s, base, whens, bits).Ok?
    ensures var t := Prefetch(s, base, whens, bits).state;
      Quiescent(t) && SameForUser(s, t)
  {
    hide FetchMany, Inv, SameForUser, Buffers, Delivered, AllLoaned, KeepsLoans;
    PrefetchReady(s, base);
    PrefetchBuffers(s, base, whens);
    var g := Gather(s, base, CORE_PREFETCH_RATE);
    var r := FetchMany(g.state, |g.pages|);
    var u := r.states[|r.frames|];
    var t := Prefetch(s, base, whens, bits).state;
    FinishAllKeeps(u, g.pages, r.frames, Buffers(r.states, g.pages, whens), bits, SetOf(g.pages) + SetOf(r.frames));
    SameForUserTrans(s, g.state, u);
    SameForUserTrans(s, u, t);
    assert SetOf(g.pages) + SetOf(r.frames) - SetOf(g.pages) - SetOf(r.frames) == {};
  }
}
