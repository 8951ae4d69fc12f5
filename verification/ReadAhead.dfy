/** `core_try_prefetch` on the heap: a batch of reads in flight while frames are
    found, in every order in which the device may complete them. */
module ReadAhead {
  import opened Machine
  import opened Fifo
  import opened Fetch
  import opened SwapIn
  import opened Faults
  import opened Prefetching
  import opened Handlers
  import P = Pager
  import V = VectorEviction

  lemma GatherMore(s: State, t: State, base: nat, n: nat, k: nat, boundary: nat, pages: seq<nat>)
    requires Inv(s) && Inv(t) && k < n
    requires Gather(s, base, n) == Gathered(Gather(t, boundary, n - k).state, pages + Gather(t, boundary, n - k).pages)
    requires boundary + PAGE_SIZE in t.index
    ensures var p := t.index[boundary + PAGE_SIZE];
      && p in t.desc
      && (!t.desc[p].migrating && t.desc[p].swappedOut ==>
            && SwappedOut(t, p) && Inv(StartRead(t, p))
            && var rest := Gather(StartRead(t, p), boundary + PAGE_SIZE, n - k - 1);
               Gather(s, base, n) == Gathered(rest.state, pages + [p] + rest.pages))
      && (t.desc[p].migrating || !t.desc[p].swappedOut ==> Gather(s, base, n) == Gathered(t, pages))
  {
    hide Inv, StartRead;
    SwappedOutPage(t, boundary + PAGE_SIZE);
    var p := t.index[boundary + PAGE_SIZE];
    if !t.desc[p].migrating && t.desc[p].swappedOut {
      StartReadKeeps(t, p);
      var rest := Gather(StartRead(t, p), boundary + PAGE_SIZE, n - k - 1);
      assert pages + ([p] + rest.pages) == pages + [p] + rest.pages;
    } else {
      assert pages + [] == pages;
    }
  }

  lemma GatherEnd(s: State, t: State, base: nat, n: nat, k: nat, boundary: nat, pages: seq<nat>)
    requires Inv(s) && Inv(t) && k <= n && (k == n || boundary + PAGE_SIZE !in t.index)
    requires Gather(s, base, n) == Gathered(Gather(t, boundary, n - k).state, pages + Gather(t, boundary, n - k).pages)
    ensures Gather(s, base, n) == Gathered(t, pages)
  {
    assert pages + [] == pages;
  }

  /** The pages to read are taken off their list. */
  method GatherPages(g: P.Pager, base: nat, list: array<UserPage?>) returns (nr: nat, ghost pages: seq<nat>)
    requires g.Valid() && Inv(g.state) && list.Length == CORE_PREFETCH_RATE && list !in g.Repr()
    modifies g.Repr(), list
    ensures g.Valid() && g.pages == old(g.pages)
    ensures Gather(old(g.state), base, CORE_PREFETCH_RATE) == Gathered(g.state, pages)
    ensures nr == |pages| && V.Vector(g, list, pages)
  {
    hide P.Pager.Valid, Inv, Gather, StartRead;
    ghost var s := g.state;
    var boundary: nat := base;
    nr, pages := 0, [];
    assert pages + Gather(s, base, CORE_PREFETCH_RATE).pages == Gather(s, base, CORE_PREFETCH_RATE).pages;
    while nr < CORE_PREFETCH_RATE
      invariant nr <= CORE_PREFETCH_RATE && g.Valid() && g.pages == old(g.pages) && Inv(g.state)
      invariant nr == |pages| && V.Vector(g, list, pages)
      invariant var rest := Gather(g.state, boundary, CORE_PREFETCH_RATE - nr);
        Gather(s, base, CORE_PREFETCH_RATE) == Gathered(rest.state, pages + rest.pages)
    {
      var page := g.FindPage(boundary + PAGE_SIZE);
      if page == null {
        GatherEnd(s, g.state, base, CORE_PREFETCH_RATE, nr, boundary, pages);
        return;
      }
      GatherMore(s, g.state, base, CORE_PREFETCH_RATE, nr, boundary, pages);
      TrackedHere(g.state, boundary + PAGE_SIZE);
      g.Look(page);
      assert page.va == boundary + PAGE_SIZE;
      if page.migrating || !page.swappedOut {
        return;
      }
      assert page.va != 0;
      StartOne(g, page);
      list[nr] := page;
      nr, pages, boundary := nr + 1, pages + [page.addr], boundary + PAGE_SIZE;
    }
    GatherEnd(s, g.state, base, CORE_PREFETCH_RATE, nr, boundary, pages);
  }

  lemma TrackedHere(s: State, va: nat)
    requires Inv(s) && va in s.index
    ensures s.index[va] in s.desc && s.desc[s.index[va]].va == va
  {
    assert Indexed(s, va);
  }

  method StartOne(g: P.Pager, page: UserPage)
    requires g.Valid() && Inv(g.state) && g.Known(page) && SwappedOut(g.state, page.addr)
    modifies g.Repr()
    ensures g.Valid() && g.pages == old(g.pages) && page.addr in old(g.state.desc)
    ensures g.state == StartRead(old(g.state), page.addr)
  {
    hide P.Pager.Valid, Inv, Lists.Get;
    SwappedOutOnList(g.state, page.addr);
    StartReadBounds(g.state, page.addr);
    GetDiskActive(g.state.lists);
    g.SetMigrating(page, true);
    g.Look(page);
    assert page.list == g.diskActiveList;
    var ret := g.TryRemove(DiskActive, g.diskActiveList, page);
    assert ret == 0;
    g.Look(page);
    g.MemoryIs();
    assert !page.inDram && page.virtualOffset + PAGE_SIZE <= g.disksize;
  }

  lemma GetDiskActive(l: Lists)
    ensures l.Get(DiskActive) == l.diskActive
  {}

  // ----- frames for the pages, while the reads complete -----

  ghost predicate OnDiskNow(s: State, pages: seq<nat>) {
    forall i {:trigger pages[i]} :: 0 <= i < |pages| ==> pages[i] in s.desc && !s.desc[pages[i]].inDram
  }

  /** Read `i` completes once `k` frames were found, or at the latest when all were. */
  predicate Completes(whens: seq<nat>, i: nat, k: nat, last: bool) {
    At(whens, i, 0) == k || (last && At(whens, i, 0) >= k)
  }

  /** The device delivers the reads that complete now. */
  method Deliver(g: P.Pager, list: array<UserPage?>, buffer: array<Bytes>, n: nat, whens: seq<nat>, k: nat, last: bool,
                 ghost pages: seq<nat>)
    requires g.Valid() && V.Vector(g, list, pages) && n == |pages| <= buffer.Length && OnDiskNow(g.state, pages)
    modifies buffer
    ensures forall i {:trigger buffer[i]} :: 0 <= i < n && Completes(whens, i, k, last) ==> buffer[i] == Content(g.state, pages[i])
    ensures forall i {:trigger buffer[i]} :: 0 <= i < n && !Completes(whens, i, k, last) ==> buffer[i] == old(buffer[i])
  {
    hide P.Pager.Valid, Content, Completes;
    var i := 0;
    while i < n
      invariant i <= n
      invariant forall j {:trigger buffer[j]} :: i <= j < n ==> buffer[j] == old(buffer[j])
      invariant forall j {:trigger buffer[j]} :: 0 <= j < i && Completes(whens, j, k, last) ==> buffer[j] == Content(g.state, pages[j])
      invariant forall j {:trigger buffer[j]} :: 0 <= j < i && !Completes(whens, j, k, last) ==> buffer[j] == old(buffer[j])
    {
      if Completes(whens, i, k, last) {
        g.Look(list[i]);
        assert pages[i] in g.state.desc;
        buffer[i] := ReadSlot(g, list[i]);
      }
      i := i + 1;
    }
  }

  ghost function Prepend(states: seq<State>, frames: seq<nat>, rest: Many): Many {
    if rest.Short? then rest else All(states + rest.states, frames + rest.frames)
  }

  /** `t` was reached after `frames`; the rest of the search is still ahead. */
  ghost predicate Fetching(s: State, t: State, n: nat, states: seq<State>, frames: seq<nat>)
    requires Inv(s) && Inv(t) && |frames| <= n
  {
    && |states| == |frames| + 1 && states[|frames|] == t
    && FetchMany(s, n) == Prepend(states[..|frames|], frames, FetchMany(t, n - |frames|))
  }

  lemma FetchManyStep(t: State, n: nat)
    requires Inv(t) && n > 0
    ensures var r := PageFault(t);
      && (!r.Got? ==> FetchMany(t, n) == Short(r))
      && (r.Got? ==> Inv(r.state) && FetchMany(t, n) == Prepend([t], [r.frame], FetchMany(r.state, n - 1)))
  {
    hide Inv, PageFault;
    if PageFault(t).Got? {
      PageFaultKeeps(t);
    }
  }

  lemma PrependTwice(a: seq<State>, b: seq<nat>, c: seq<State>, d: seq<nat>, rest: Many)
    ensures Prepend(a, b, Prepend(c, d, rest)) == Prepend(a + c, b + d, rest)
  {
    if rest.All? {
      assert a + (c + rest.states) == a + c + rest.states && b + (d + rest.frames) == b + d + rest.frames;
    }
  }

  lemma FetchingMore(s: State, t: State, n: nat, states: seq<State>, frames: seq<nat>)
    requires Inv(s) && Inv(t) && |frames| < n && Fetching(s, t, n, states, frames)
    ensures var r := PageFault(t);
      && (!r.Got? ==> FetchMany(s, n) == Short(r))
      && (r.Got? ==> Inv(r.state) && Fetching(s, r.state, n, states + [r.state], frames + [r.frame]))
  {
    hide Inv, PageFault, FetchMany, Prepend;
    FetchManyStep(t, n - |frames|);
    PrependShort(states[..|frames|], frames, FetchMany(t, n - |frames|));
    var r := PageFault(t);
    if r.Got? {
      PrependTwice(states[..|frames|], frames, [t], [r.frame], FetchMany(r.state, n - |frames| - 1));
      TakeLast(states, r.state, |frames|);
    }
  }

  lemma FetchNone(s: State)
    requires Inv(s)
    ensures FetchMany(s, 0) == All([s], [])
  {}

  lemma TakeLast(states: seq<State>, t: State, k: nat)
    requires |states| == k + 1
    ensures (states + [t])[..k + 1] == states[..k] + [states[k]] && (states + [t])[k + 1] == t
  {}

  lemma PrependShort(states: seq<State>, frames: seq<nat>, r: Many)
    ensures r.Short? ==> Prepend(states, frames, r) == r
    ensures r.All? ==> Prepend(states, frames, r) == All(states + r.states, frames + r.frames)
  {}

  lemma FetchingEnd(s: State, t: State, n: nat, states: seq<State>, frames: seq<nat>)
    requires Inv(s) && Inv(t) && |frames| == n && Fetching(s, t, n, states, frames)
    ensures FetchMany(s, n) == All(states, frames)
  {
    hide Prepend, Inv, FetchMany;
    FetchNone(t);
    PrependShort(states[..n], frames, FetchMany(t, 0));
    assert states[..n] + [t] == states && frames + [] == frames;
  }

  lemma FetchingStart(s: State, n: nat)
    requires Inv(s)
    ensures Fetching(s, s, n, [s], [])
  {
    hide Inv, FetchMany;
    PrependNothing([s][..0], FetchMany(s, n));
  }

  lemma PrependNothing(none: seq<State>, r: Many)
    requires none == []
    ensures Prepend(none, [], r) == r
  {
    if r.All? {
      assert none + r.states == r.states && [] + r.frames == r.frames;
    }
  }

  /** Page `i`'s buffer holds what its slot held when its read completed, if it has. */
  ghost predicate Buffered(states: seq<State>, pages: seq<nat>, whens: seq<nat>, buffer: seq<Bytes>, k: nat)
    requires |states| >= k
  {
    |buffer| >= |pages| && forall i {:trigger buffer[i]} :: 0 <= i < |pages| ==>
      At(whens, i, 0) < k ==> buffer[i] == Content(states[At(whens, i, 0)], pages[i])
  }

  /** Every page of the batch is off its list and on disk. */
  ghost predicate BeingRead(s: State, pages: seq<nat>) {
    forall i {:trigger pages[i]} :: 0 <= i < |pages| ==>
      pages[i] in s.desc && s.desc[pages[i]].list == None && !s.desc[pages[i]].inDram
  }

  lemma StillRead(s: State, t: State, f: nat, pages: seq<nat>)
    requires Served(s, t, f) && BeingRead(s, pages)
    ensures BeingRead(t, pages)
  {}

  lemma BufferedAll(states: seq<State>, pages: seq<nat>, whens: seq<nat>, was: seq<Bytes>, buffer: seq<Bytes>, n: nat)
    requires |states| == n + 1 && Buffered(states, pages, whens, was, n) && |pages| <= |was| == |buffer|
    requires forall i {:trigger buffer[i]} :: 0 <= i < |pages| && At(whens, i, 0) < n ==> buffer[i] == was[i]
    requires forall i {:trigger buffer[i]} :: 0 <= i < |pages| && At(whens, i, 0) >= n ==> buffer[i] == Content(states[n], pages[i])
    ensures buffer[..|pages|] == Buffers(states, pages, whens)
  {
    hide Content;
    forall i | 0 <= i < |pages| ensures buffer[i] == Buffers(states, pages, whens)[i] {
      var w := At(whens, i, 0);
      assert buffer[i] == Content(states[if w < |states| then w else |states| - 1], pages[i]);
    }
  }

  lemma BufferedMore(states: seq<State>, t: State, pages: seq<nat>, whens: seq<nat>, was: seq<Bytes>, buffer: seq<Bytes>, k: nat)
    requires |states| == k + 1 && |pages| <= |was| == |buffer| && Buffered(states, pages, whens, was, k)
    requires forall i {:trigger buffer[i]} :: 0 <= i < |pages| && At(whens, i, 0) == k ==> buffer[i] == Content(states[k], pages[i])
    requires forall i {:trigger buffer[i]} :: 0 <= i < |pages| && At(whens, i, 0) != k ==> buffer[i] == was[i]
    ensures Buffered(states + [t], pages, whens, buffer, k + 1)
  {
    hide Content;
  }

  method FetchFrames(g: P.Pager, list: array<UserPage?>, freelist: array<UserPage?>, buffer: array<Bytes>, n: nat,
                     whens: seq<nat>, ghost pages: seq<nat>)
      returns (found: Found, ghost states: seq<State>, ghost frames: seq<nat>)
    requires g.Valid() && Inv(g.state) && V.Vector(g, list, pages) && BeingRead(g.state, pages)
    requires n == |pages| <= freelist.Length && n <= buffer.Length && list != freelist
    requires list !in g.Repr() && freelist !in g.Repr() && buffer !in g.Repr()
    modifies g.Repr(), freelist, buffer
    ensures g.Valid() && g.pages == old(g.pages) && V.Vector(g, list, pages)
    ensures found == Frame <==> FetchMany(old(g.state), n).All?
    ensures found == Frame ==> FetchMany(old(g.state), n) == All(states, frames) && g.state == states[n]
    ensures found == Frame ==> |frames| == n && V.Vector(g, freelist, frames) && buffer[..n] == Buffers(states, pages, whens)
    ensures found != Frame ==> Ended(g, Failed(FetchMany(old(g.state), n).why), found)
  {
    hide P.Pager.Valid, Inv, FetchMany, PageFault, Content, Served, Prepend, Buffered, BeingRead, Fetching;
    ghost var s := g.state;
    states, frames := [s], [];
    FetchingStart(s, n);
    BufferedNone(states, pages, whens, buffer[..]);
    var k := 0;
    while k < n
      invariant k == |frames| <= n && g.Valid() && g.pages == old(g.pages) && Inv(g.state)
      invariant V.Vector(g, list, pages) && V.Vector(g, freelist, frames) && BeingRead(g.state, pages)
      invariant Fetching(s, g.state, n, states, frames) && |states| == k + 1 && Buffered(states, pages, whens, buffer[..], k)
    {
      FetchingLast(s, g.state, n, states, frames);
      FetchingMore(s, g.state, n, states, frames);
      var page;
      found, page := FetchOne(g, list, buffer, n, whens, k, pages, states);
      if page == null {
        return;
      }
      freelist[k] := page;
      states, frames, k := states + [g.state], frames + [page.addr], k + 1;
    }
    ghost var was := buffer[..];
    StillOnDisk(g.state, pages);
    Deliver(g, list, buffer, n, whens, n, true, pages);
    FetchingEnd(s, g.state, n, states, frames);
    FetchingLast(s, g.state, n, states, frames);
    BufferedAll(states, pages, whens, was, buffer[..], n);
    found := Frame;
  }

  lemma StillOnDisk(s: State, pages: seq<nat>)
    requires BeingRead(s, pages)
    ensures OnDiskNow(s, pages)
  {}

  lemma FetchingLast(s: State, t: State, n: nat, states: seq<State>, frames: seq<nat>)
    requires Inv(s) && Inv(t) && |frames| <= n && Fetching(s, t, n, states, frames)
    ensures |states| == |frames| + 1 && states[|frames|] == t
  {}

  /** The reads that complete now are delivered, and one more frame is found. */
  method FetchOne(g: P.Pager, list: array<UserPage?>, buffer: array<Bytes>, n: nat, whens: seq<nat>, k: nat,
                  ghost pages: seq<nat>, ghost states: seq<State>) returns (found: Found, page: UserPage?)
    requires g.Valid() && Inv(g.state) && V.Vector(g, list, pages) && BeingRead(g.state, pages)
    requires n == |pages| <= buffer.Length && list !in g.Repr() && buffer !in g.Repr()
    requires |states| == k + 1 && states[k] == g.state && Buffered(states, pages, whens, buffer[..], k)
    modifies g.Repr(), buffer
    ensures g.Valid() && g.pages == old(g.pages) && V.Vector(g, list, pages)
    ensures Reports(g, PageFault(old(g.state)), found, page)
    ensures page != null ==> Inv(g.state) && BeingRead(g.state, pages)
    ensures page != null ==> Buffered(states + [g.state], pages, whens, buffer[..], k + 1)
  {
    hide P.Pager.Valid, Inv, PageFault, Content, Served, Buffered;
    ghost var (t, was) := (g.state, buffer[..]);
    Deliver(g, list, buffer, n, whens, k, false, pages);
    found, page := PageFaultFrame(g);
    if page != null {
      PageFaultKeeps(t);
      ServedInv(t, g.state, page.addr);
      StillRead(t, g.state, page.addr, pages);
      BufferedMore(states, g.state, pages, whens, was, buffer[..], k);
    }
  }

  lemma BufferedNone(states: seq<State>, pages: seq<nat>, whens: seq<nat>, buffer: seq<Bytes>)
    requires |pages| <= |buffer|
    ensures Buffered(states, pages, whens, buffer, 0)
  {}

  // ----- mapping the pages -----

  ghost function Drop(bits: seq<Bits>, i: nat): seq<Bits> {
    if i <= |bits| then bits[i..] else []
  }

  ghost predicate Finishing(s: State, t: State, ps: seq<nat>, fs: seq<nat>, buffers: seq<Bytes>, bits: seq<Bits>, i: nat)
    requires AllLoaned(s, ps, fs) && |buffers| == |ps|
  {
    && i <= |ps| && AllLoaned(t, ps[i..], fs[i..])
    && FinishAll(t, ps[i..], fs[i..], buffers[i..], Drop(bits, i)) == FinishAll(s, ps, fs, buffers, bits)
  }

  lemma FinishingMore(s: State, t: State, ps: seq<nat>, fs: seq<nat>, buffers: seq<Bytes>, bits: seq<Bits>, i: nat)
    requires AllLoaned(s, ps, fs) && |buffers| == |ps| && Finishing(s, t, ps, fs, buffers, bits, i) && i < |ps|
    ensures Loaned(t, ps[i], fs[i])
    ensures Finishing(s, FinishRead(t, ps[i], fs[i], buffers[i], At(bits, i, Bits(false, false))), ps, fs, buffers, bits, i + 1)
  {
    hide FinishRead, Loaned;
    assert ps[i..][0] == ps[i] && fs[i..][0] == fs[i] && buffers[i..][0] == buffers[i];
    assert ps[i..][1..] == ps[i + 1..] && fs[i..][1..] == fs[i + 1..] && buffers[i..][1..] == buffers[i + 1..];
    assert At(Drop(bits, i), 0, Bits(false, false)) == At(bits, i, Bits(false, false));
    assert (if Drop(bits, i) == [] then [] else Drop(bits, i)[1..]) == Drop(bits, i + 1);
    assert Loaned(t, ps[i..][0], fs[i..][0]);
    FinishFirst(t, ps[i..], fs[i..], buffers[i], At(bits, i, Bits(false, false)));
  }

  /** From the `i`th pair on, page and frame are as the swap-in wants them. */
  ghost predicate Arrives(s: State, ps: seq<nat>, fs: seq<nat>, i: nat)
    requires |ps| == |fs|
  {
    forall k {:trigger ps[k]} :: i <= k < |ps| ==> Arriving(s, ps[k], fs[k])
  }

  lemma ArrivingApart(s: State, p: nat, f: nat, p': nat, f': nat, bytes: Bytes, bits: Bits)
    requires Arriving(s, p, f) && Arriving(s, p', f') && p != p' && f != f'
    ensures Arriving(FinishRead(s, p, f, bytes, bits), p', f')
  {}

  lemma ArrivesMore(s: State, ps: seq<nat>, fs: seq<nat>, i: nat, bytes: Bytes, bits: Bits)
    requires |ps| == |fs| && NoDup(ps) && NoDup(fs) && i < |ps| && Arrives(s, ps, fs, i)
    ensures Arriving(s, ps[i], fs[i]) && ps[i] != fs[i]
    ensures Arrives(FinishRead(s, ps[i], fs[i], bytes, bits), ps, fs, i + 1)
  {
    hide FinishRead, Arriving;
    assert Arriving(s, ps[i], fs[i]);
    ArrivingPair(s, ps[i], fs[i]);
    forall k | i + 1 <= k < |ps| ensures Arriving(FinishRead(s, ps[i], fs[i], bytes, bits), ps[k], fs[k]) {
      assert Arriving(s, ps[k], fs[k]);
      ArrivingApart(s, ps[i], fs[i], ps[k], fs[k], bytes, bits);
    }
  }

  lemma ArrivingPair(s: State, p: nat, f: nat)
    requires Arriving(s, p, f)
    ensures p in s.desc && f in s.desc && p != f
  {}

  lemma AllArrive(s: State, ps: seq<nat>, fs: seq<nat>)
    requires Inv(s) && AllLoaned(s, ps, fs)
    ensures Arrives(s, ps, fs, 0)
  {
    hide Inv, Arriving;
    forall k | 0 <= k < |ps| ensures Arriving(s, ps[k], fs[k]) { LoanedArrives(s, ps[k], fs[k]); }
  }

  method FinishPages(g: P.Pager, list: array<UserPage?>, freelist: array<UserPage?>, buffer: array<Bytes>, n: nat,
                     bits: seq<Bits>, ghost ps: seq<nat>, ghost fs: seq<nat>)
    requires g.Valid() && V.Vector(g, list, ps) && V.Vector(g, freelist, fs) && n == |ps| <= buffer.Length
    requires Inv(g.state) && AllLoaned(g.state, ps, fs)
    requires list !in g.Repr() && freelist !in g.Repr() && buffer !in g.Repr()
    modifies g.Repr()
    ensures g.Valid() && g.pages == old(g.pages)
    ensures g.state == FinishAll(old(g.state), ps, fs, buffer[..n], bits)
  {
    hide P.Pager.Valid, Inv, FinishRead, AllLoaned, FinishAll, Arriving, Arrives;
    ghost var s := g.state;
    ghost var buffers := buffer[..n];
    AllLoanedSame(s, ps, fs);
    AllArrive(s, ps, fs);
    assert ps[0..] == ps && fs[0..] == fs && buffers[0..] == buffers && Drop(bits, 0) == bits;
    var i := 0;
    while i < n
      invariant i <= n && g.Valid() && g.pages == old(g.pages) && Finishing(s, g.state, ps, fs, buffers, bits, i)
      invariant Arrives(g.state, ps, fs, i)
    {
      FinishingMore(s, g.state, ps, fs, buffers, bits, i);
      ArrivesMore(g.state, ps, fs, i, buffer[i], At(bits, i, Bits(false, false)));
      g.Look(list[i]);
      g.Look(freelist[i]);
      assert freelist[i] != null;
      FinishSwapIn(g, list[i], freelist[i], buffer[i], At(bits, i, Bits(false, false)));
      i := i + 1;
    }
    FinishNothing(g.state, Drop(bits, n));
    assert ps[n..] == [] && fs[n..] == [] && buffers[n..] == [];
  }

  lemma AllLoanedSame(s: State, ps: seq<nat>, fs: seq<nat>)
    requires AllLoaned(s, ps, fs)
    ensures |ps| == |fs| && NoDup(ps) && NoDup(fs)
  {}

  lemma FinishNothing(s: State, bits: seq<Bits>)
    ensures AllLoaned(s, [], []) && FinishAll(s, [], [], [], bits) == s
  {}

  lemma GatheredAreRead(s: State, pages: seq<nat>)
    requires Lends(s, SetOf(pages)) && forall p :: p in pages ==> p in s.desc && Swapped(s.desc[p])
    ensures BeingRead(s, pages)
  {
    forall i | 0 <= i < |pages|
      ensures pages[i] in s.desc && s.desc[pages[i]].list == None && !s.desc[pages[i]].inDram
    {
      assert pages[i] in SetOf(pages);
    }
  }

  lemma SteadyInv(s: State, r: Many, loan: set<nat>)
    requires Steady(s, r, loan)
    ensures Inv(r.states[|r.frames|])
  {}

  /** `core_try_prefetch`; `whens[i]` says how many frames had been found when the
      `i`th read completed. */
  method CoreTryPrefetch(g: P.Pager, base: nat, whens: seq<nat>, bits: seq<Bits>) returns (found: Found)
    requires g.Valid() && Quiescent(g.state)
    modifies g.Repr()
    ensures g.Valid() && g.pages == old(g.pages)
    ensures Ended(g, Prefetch(old(g.state), base, whens, bits), found)
  {
    hide P.Pager.Valid, Inv, Gather, FetchMany, FinishAll, AllLoaned, Buffers, SameForUser, Steady, BeingRead;
    ghost var s := g.state;
    var list := new UserPage?[CORE_PREFETCH_RATE];
    var freelist := new UserPage?[CORE_PREFETCH_RATE];
    var nr;
    ghost var pages;
    PrefetchReady(s, base);
    nr, pages := GatherPages(g, base, list);
    GatheredAreRead(g.state, pages);
    ghost var t := g.state;
    var zero := ZeroPage();
    var buffer := new Bytes[nr](_ => zero);
    ghost var states, frames;
    found, states, frames := FetchFrames(g, list, freelist, buffer, nr, whens, pages);
    if found == Frame {
      SteadyInv(t, All(states, frames), SetOf(pages));
      FinishPages(g, list, freelist, buffer, nr, bits, pages, frames);
    }
  }
}
