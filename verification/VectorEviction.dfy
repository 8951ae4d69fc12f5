/** The vector worker on the heap: a batch of victims goes through the phases
    together, one index loop a phase. */
module VectorEviction {
  import opened Machine
  import opened Fifo
  import opened Evict
  import opened Eviction
  import P = Pager
  import X = Exchange
  import W = Workers

  // ----- a sweep, seen from the middle -----

  ghost predicate Untouched(s: State, t: State, j: Job) {
    && j.victim in s.desc && j.victim in t.desc && t.desc[j.victim] == s.desc[j.victim]
    && j.disk in s.desc && j.disk in t.desc && t.desc[j.disk] == s.desc[j.disk]
  }

  /** `t` is the state `s` with the phase done for the first `i` jobs. */
  ghost predicate Midway(ph: Phase, s: State, t: State, jobs: seq<Job>, i: nat) {
    && i <= |jobs|
    && AllFit(s, jobs) && AllFit(t, jobs)
    && AllFit(t, jobs[i..]) && Sweep(ph, t, jobs[i..]) == Sweep(ph, s, jobs)
    && forall k {:trigger jobs[k]} :: i <= k < |jobs| ==> Untouched(s, t, jobs[k])
  }

  lemma MidwayStart(ph: Phase, s: State, jobs: seq<Job>)
    requires AllFit(s, jobs)
    ensures Midway(ph, s, s, jobs, 0)
  {
    assert jobs[0..] == jobs;
    forall k | 0 <= k < |jobs| ensures Untouched(s, s, jobs[k]) { assert Fits(s, jobs[k]); }
  }

  lemma DoElsewhere(ph: Phase, s: State, j: Job, k: Job)
    requires Fits(s, j) && Fits(s, k) && Apart(j, k)
    ensures Untouched(s, Do(ph, s, j), k)
  {}

  lemma MidwayStep(ph: Phase, s: State, t: State, jobs: seq<Job>, i: nat)
    requires Midway(ph, s, t, jobs, i) && i < |jobs| && AllApart(jobs)
    ensures Fits(t, jobs[i]) && Midway(ph, s, Do(ph, t, jobs[i]), jobs, i + 1)
  {
    hide Do, Fits, Apart;
    assert Fits(t, jobs[i]);
    var u := Do(ph, t, jobs[i]);
    assert jobs[i..][0] == jobs[i] && jobs[i..][1..] == jobs[i + 1..];
    forall k | i + 1 <= k < |jobs| ensures Untouched(s, u, jobs[k]) {
      assert Untouched(s, t, jobs[k]);
      DoElsewhere(ph, t, jobs[i], jobs[k]);
    }
  }

  lemma MidwayEnd(ph: Phase, s: State, t: State, jobs: seq<Job>)
    requires Midway(ph, s, t, jobs, |jobs|)
    ensures t == Sweep(ph, s, jobs)
  {
    assert jobs[|jobs|..] == [];
  }

  // ----- the index loops -----

  /** `vector[i]` is the descriptor at the `i`th of these addresses. */
  ghost predicate Vector(g: P.Pager, vector: array<UserPage?>, addrs: seq<nat>)
    reads g, vector
  {
    && |addrs| <= vector.Length
    && forall i {:trigger vector[i]} :: 0 <= i < |addrs| ==>
         vector[i] != null && g.Known(vector[i]) && vector[i].addr == addrs[i]
  }

  ghost function Victims(jobs: seq<Job>): (r: seq<nat>)
    ensures |r| == |jobs| && forall i {:trigger r[i]} :: 0 <= i < |r| ==> r[i] == jobs[i].victim
  {
    seq(|jobs|, i requires 0 <= i < |jobs| => jobs[i].victim)
  }

  ghost function Disks(jobs: seq<Job>): (r: seq<nat>)
    ensures |r| == |jobs| && forall i {:trigger r[i]} :: 0 <= i < |r| ==> r[i] == jobs[i].disk
  {
    seq(|jobs|, i requires 0 <= i < |jobs| => jobs[i].disk)
  }

  ghost predicate Ready(g: P.Pager, victim: array<UserPage?>, disk: array<UserPage?>, jobs: seq<Job>)
    reads g, victim, disk
  {
    && Vector(g, victim, Victims(jobs)) && Vector(g, disk, Disks(jobs))
    && AllFit(g.state, jobs) && AllApart(jobs)
  }

  /** `extmem_migrate_downdisk_vector`: all writes, then all unmappings, then the
      descriptors. */
  method MigrateDownVector(g: P.Pager, n: nat, victim: array<UserPage?>, disk: array<UserPage?>, writeback: array<bool>,
                           ghost jobs: seq<Job>)
    requires g.Valid() && Ready(g, victim, disk, jobs) && n == |jobs| <= writeback.Length
    requires forall i {:trigger writeback[i]} :: 0 <= i < n ==> writeback[i] == jobs[i].writeback
    requires victim !in g.Repr() && disk !in g.Repr() && writeback !in g.Repr()
    requires forall i {:trigger jobs[i]} :: 0 <= i < n ==> Going(g.state, jobs[i])
    modifies g.Repr()
    ensures g.Valid() && g.pages == old(g.pages) && Ready(g, victim, disk, jobs)
    ensures g.state == SweptDown(old(g.state), jobs)
  {
    hide P.Pager.Valid, Do, Fits, Sweep, Apart, Going;
    ghost var s := g.state;
    ghost var start := s;
    MidwayStart(Write, s, jobs);
    var i := 0;
    while i < n
      invariant i <= n && g.Valid() && g.pages == old(g.pages) && Midway(Write, s, g.state, jobs, i)
      invariant g.state.mem.ram == s.mem.ram
    {
      assert Going(s, jobs[i]) && Untouched(s, g.state, jobs[i]);
      GoingFields(s, jobs[i]);
      g.Look(victim[i]);
      assert victim[i].inDram;
      MidwayStep(Write, s, g.state, jobs, i);
      WritesNoRam(g.state, jobs[i]);
      WriteSlot(g, victim[i], disk[i], writeback[i], jobs[i]);
      i := i + 1;
    }
    MidwayEnd(Write, s, g.state, jobs);
    s := g.state;
    MidwayStart(Unmap, s, jobs);
    i := 0;
    while i < n
      invariant i <= n && g.Valid() && g.pages == old(g.pages) && Midway(Unmap, s, g.state, jobs, i)
    {
      MidwayStep(Unmap, s, g.state, jobs, i);
      Discard(g, victim[i], jobs[i]);
      i := i + 1;
    }
    MidwayEnd(Unmap, s, g.state, jobs);
    s := g.state;
    MidwayStart(Move, s, jobs);
    i := 0;
    while i < n
      invariant i <= n && g.Valid() && g.pages == old(g.pages) && Midway(Move, s, g.state, jobs, i)
    {
      MidwayStep(Move, s, g.state, jobs, i);
      MoveDown(g, victim[i], disk[i], jobs[i]);
      i := i + 1;
    }
    MidwayEnd(Move, s, g.state, jobs);
    s := g.state;
    MidwayStart(Flag, s, jobs);
    i := 0;
    while i < n
      invariant i <= n && g.Valid() && g.pages == old(g.pages) && Midway(Flag, s, g.state, jobs, i)
    {
      assert Going(start, jobs[i]) && Untouched(s, g.state, jobs[i]);
      MovedFields(start, jobs, i);
      MidwayStep(Flag, s, g.state, jobs, i);
      FlagSwapped(g, victim[i], jobs[i]);
      i := i + 1;
    }
    MidwayEnd(Flag, s, g.state, jobs);
  }

  lemma GoingFields(s: State, j: Job)
    requires Going(s, j)
    ensures j.victim in s.desc && s.desc[j.victim].inDram && j.va in s.mem.ram
  {}

  lemma WritesNoRam(s: State, j: Job)
    requires Fits(s, j)
    ensures Do(Write, s, j).mem.ram == s.mem.ram
  {}

  /** The victims are marked, and not yet flagged, when the last loop begins. */
  lemma MovedFields(s: State, jobs: seq<Job>, k: nat)
    requires AllFit(s, jobs) && AllApart(jobs) && k < |jobs| && Going(s, jobs[k])
    ensures AllFit(Sweep(Write, s, jobs), jobs)
    ensures AllFit(Sweep(Unmap, Sweep(Write, s, jobs), jobs), jobs)
    ensures var (t, j) := (Sweep(Move, Sweep(Unmap, Sweep(Write, s, jobs), jobs), jobs), jobs[k]);
      j.victim in t.desc && !t.desc[j.victim].swappedOut && t.desc[j.victim].migrating
  {
    hide Sweep, Apart;
    SweptFit(s, jobs);
    var s1 := Sweep(Write, s, jobs);
    SweptFit(s1, jobs);
    var s2 := Sweep(Unmap, s1, jobs);
    SweptFit(s2, jobs);
    SweepFields(Write, s, jobs, k);
    SweepFields(Unmap, s1, jobs, k);
    SweepFields(Move, s2, jobs, k);
  }

  ghost function SweptDown(s: State, jobs: seq<Job>): (t: State)
    requires AllFit(s, jobs)
    ensures AllFit(t, jobs)
  {
    SweptFit(s, jobs);
    Sweep(Flag, Sweep(Move, Sweep(Unmap, Sweep(Write, s, jobs), jobs), jobs), jobs)
  }

  lemma SweptFit(s: State, jobs: seq<Job>)
    requires AllFit(s, jobs)
    ensures forall ph {:trigger Sweep(ph, s, jobs)} :: AllFit(Sweep(ph, s, jobs), jobs)
  {
    hide Fits;
  }

  // ----- picking and marking the batch -----

  ghost function Picked(s: State, vs: seq<nat>): State
    requires vs <= s.lists.eviction
  {
    s.(desc := map p | p in s.desc :: if p in vs then s.desc[p].(list := None) else s.desc[p],
       lists := s.lists.(eviction := s.lists.eviction[|vs|..]))
  }

  ghost function MarkedMany(s: State, vs: seq<nat>): State {
    s.(desc := map p | p in s.desc :: if p in vs then s.desc[p].(migrating := true) else s.desc[p],
       mem := s.mem.(protected := s.mem.protected + set v | v in vs && v in s.desc :: s.desc[v].va))
  }

  lemma PickedMore(s: State, vs: seq<nat>, v: nat)
    requires vs + [v] <= s.lists.eviction && v in s.desc
    ensures vs <= s.lists.eviction
    ensures Detach(Picked(s, vs), Eviction, v) == Picked(s, vs + [v])
  {
    var t := Picked(s, vs);
    assert s.lists.eviction[|vs|] == v;
    assert t.lists.eviction[0] == v;
    assert Detach(t, Eviction, v).desc == Picked(s, vs + [v]).desc;
  }

  lemma MarkedMore(s: State, vs: seq<nat>, v: nat)
    requires v in s.desc
    ensures v in MarkedMany(s, vs).desc && Marked(MarkedMany(s, vs), v) == MarkedMany(s, vs + [v])
  {
    var (t, u) := (Marked(MarkedMany(s, vs), v), MarkedMany(s, vs + [v]));
    assert t.desc == u.desc;
    assert t.mem.protected == u.mem.protected;
  }

  lemma SweepMore(ph: Phase, s: State, jobs: seq<Job>, j: Job)
    requires AllFit(s, jobs + [j])
    ensures AllFit(s, jobs) && Fits(Sweep(ph, s, jobs), j)
    ensures Sweep(ph, s, jobs + [j]) == Do(ph, Sweep(ph, s, jobs), j)
    decreases |jobs|
  {
    hide Do, Fits;
    assert (jobs + [j])[|jobs|] == j;
    forall i | 0 <= i < |jobs| ensures Fits(s, jobs[i]) { assert (jobs + [j])[i] == jobs[i]; }
    if jobs == [] {
      assert [j][1..] == [];
    } else {
      assert (jobs + [j])[1..] == jobs[1..] + [j];
      SweepMore(ph, Do(ph, s, jobs[0]), jobs[1..], j);
    }
  }

  lemma {:induction false} PickedIsSweep(s: State, jobs: seq<Job>)
    requires AllFit(s, jobs) && Victims(jobs) <= s.lists.eviction
    ensures Picked(s, Victims(jobs)) == Sweep(Pick, s, jobs)
    decreases |jobs|
  {
    hide Do, Fits;
    if jobs == [] {
      assert Picked(s, []).desc == s.desc;
    } else {
      var (init, j) := (jobs[..|jobs| - 1], jobs[|jobs| - 1]);
      assert jobs == init + [j] && Victims(jobs) == Victims(init) + [j.victim];
      assert Fits(s, jobs[|jobs| - 1]);
      SweepMore(Pick, s, init, j);
      PickedIsSweep(s, init);
      assert j.victim in s.desc by { FitsVictim(s, j); }
      PickedMore(s, Victims(init), j.victim);
      PickIs(Sweep(Pick, s, init), j);
    }
  }

  lemma FitsVictim(s: State, j: Job)
    requires Fits(s, j)
    ensures j.victim in s.desc
  {}

  lemma {:induction false} MarkedIsSweep(s: State, jobs: seq<Job>)
    requires AllFit(s, jobs)
    ensures MarkedMany(s, Victims(jobs)) == Sweep(Mark, s, jobs)
    decreases |jobs|
  {
    hide Do, Fits;
    if jobs == [] {
      assert MarkedMany(s, []).desc == s.desc && MarkedMany(s, []).mem.protected == s.mem.protected;
    } else {
      var (init, j) := (jobs[..|jobs| - 1], jobs[|jobs| - 1]);
      assert jobs == init + [j] && Victims(jobs) == Victims(init) + [j.victim];
      assert Fits(s, jobs[|jobs| - 1]);
      SweepMore(Mark, s, init, j);
      MarkedIsSweep(s, init);
      assert j.victim in s.desc by { FitsVictim(s, j); }
      MarkedMore(s, Victims(init), j.victim);
      MarkIs(Sweep(Mark, s, init), j);
    }
  }

  /** `dequeue_fifo_vector` on the eviction list. */
  method PickAll(g: P.Pager, vector: array<UserPage?>, n: nat) returns (taken: nat)
    requires g.Valid() && n <= vector.Length && vector !in g.Repr()
    requires forall v :: v in g.state.lists.eviction ==> v in g.state.desc
    modifies g.Repr(), vector
    ensures g.Valid() && g.pages == old(g.pages)
    ensures var vs := W.Batch(old(g.state), n);
      taken == |vs| && g.state == Picked(old(g.state), vs) && Vector(g, vector, vs)
  {
    hide P.Pager.Valid;
    ghost var s := g.state;
    taken := 0;
    PickedNone(s);
    while taken < n
      invariant taken <= n && taken <= |s.lists.eviction| && g.Valid() && g.pages == old(g.pages)
      invariant g.state == Picked(s, s.lists.eviction[..taken]) && Vector(g, vector, s.lists.eviction[..taken])
    {
      ghost var vs := s.lists.eviction[..taken];
      var page := g.Dequeue(Eviction);
      if page == null {
        break;
      }
      assert page.addr == s.lists.eviction[taken];
      assert s.lists.eviction[..taken + 1] == vs + [page.addr];
      PickedMore(s, vs, page.addr);
      vector[taken] := page;
      taken := taken + 1;
    }
    assert s.lists.eviction[..taken] == W.Batch(s, n);
  }

  lemma PickedNone(s: State)
    ensures Picked(s, s.lists.eviction[..0]) == s
  {
    assert Picked(s, s.lists.eviction[..0]).desc == s.desc;
  }

  /** What the worker samples of the victim at `p`. */
  ghost predicate Sampled(s: State, p: nat, oldOffset: nat, writeback: bool) {
    && p in s.desc && oldOffset == s.desc[p].offset
    && writeback == (s.desc[p].va in s.mem.dirty || !s.desc[p].hasReserve)
  }

  lemma MarkedManyFields(s: State, vs: seq<nat>, p: nat)
    requires p in MarkedMany(s, vs).desc
    ensures p in s.desc && var d := MarkedMany(s, vs).desc[p];
      d.offset == s.desc[p].offset && d.va == s.desc[p].va && d.hasReserve == s.desc[p].hasReserve
    ensures MarkedMany(s, vs).mem.dirty == s.mem.dirty
  {}

  method MarkOne(g: P.Pager, page: UserPage, ghost s: State, ghost vs: seq<nat>) returns (oldOffset: nat, writeback: bool)
    requires g.Valid() && g.Known(page) && g.state == MarkedMany(s, vs)
    requires page.addr in s.desc && s.desc[page.addr].va != 0 && s.desc[page.addr].va % PAGE_SIZE == 0
    modifies g.Repr()
    ensures g.Valid() && g.pages == old(g.pages) && g.state == MarkedMany(s, vs + [page.addr])
    ensures Sampled(s, page.addr, oldOffset, writeback)
  {
    hide P.Pager.Valid, MarkedMany, Marked;
    g.Look(page);
    MarkedManyFields(s, vs, page.addr);
    MarkedMore(s, vs, page.addr);
    oldOffset := page.virtualOffset;
    MarkVictim(g, page);
    g.Look(page);
    g.MemoryIs();
    MarkedManyFields(s, vs + [page.addr], page.addr);
    writeback := page.va in g.memory.dirty || !page.hasReserve;
  }

  /** The whole batch is marked and write-protected, and its bits are sampled. */
  method MarkAll(g: P.Pager, victim: array<UserPage?>, oldOffset: array<nat>, writeback: array<bool>, n: nat, ghost vs: seq<nat>)
    requires g.Valid() && n == |vs| <= oldOffset.Length && n <= writeback.Length && Vector(g, victim, vs)
    requires victim !in g.Repr() && oldOffset !in g.Repr() && writeback !in g.Repr()
    requires forall i {:trigger vs[i]} :: 0 <= i < n ==>
      vs[i] in g.state.desc && g.state.desc[vs[i]].va != 0 && g.state.desc[vs[i]].va % PAGE_SIZE == 0
    modifies g.Repr(), oldOffset, writeback
    ensures g.Valid() && g.pages == old(g.pages) && Vector(g, victim, vs)
    ensures g.state == MarkedMany(old(g.state), vs)
    ensures forall i {:trigger vs[i]} :: 0 <= i < n ==> Sampled(old(g.state), vs[i], oldOffset[i], writeback[i])
  {
    hide P.Pager.Valid, MarkedMany, Sampled;
    ghost var s := g.state;
    MarkedNone(s);
    var i := 0;
    while i < n
      invariant i <= n && g.Valid() && g.pages == old(g.pages) && Vector(g, victim, vs)
      invariant g.state == MarkedMany(s, vs[..i])
      invariant forall k {:trigger vs[k]} :: 0 <= k < i ==> Sampled(s, vs[k], oldOffset[k], writeback[k])
    {
      assert vs[..i + 1] == vs[..i] + [vs[i]];
      oldOffset[i], writeback[i] := MarkOne(g, victim[i], s, vs[..i]);
      i := i + 1;
    }
    assert vs[..n] == vs;
  }

  lemma MarkedNone(s: State)
    ensures MarkedMany(s, []) == s
  {
    assert MarkedMany(s, []).desc == s.desc && MarkedMany(s, []).mem.protected == s.mem.protected;
  }

  // ----- finding a slot for each victim -----

  /** The victim `v` of the batch, marked and not yet given a disk descriptor. */
  ghost predicate Waiting(s: State, t: State, v: nat) {
    && v in s.desc && s.desc[v].list == Some(Eviction) && v in t.desc
    && t.desc[v] == s.desc[v].(list := None, migrating := true)
    && (s.desc[v].hasReserve ==> s.desc[v].reserve.Some? && s.desc[v].reserve.value in t.lists.diskReserve)
    && (s.desc[v].hasReserve ==> s.desc[v].reserve.value in t.desc && t.desc[s.desc[v].reserve.value].reserve == Some(v))
  }

  /** Slots `ds` were taken for the first victims; the rest of the search is still
      what it was from the start. */
  ghost predicate Taking(s: State, t: State, vs: seq<nat>, ds: seq<nat>) {
    && |ds| <= |vs| && (forall v :: v in vs ==> v in s.desc)
    && (forall k {:trigger vs[k]} :: |ds| <= k < |vs| ==> Waiting(s, t, vs[k]))
    && (forall d :: d in t.lists.diskFree ==> d in s.lists.diskFree)
    && (forall d {:trigger t.desc[d]} :: d in t.desc ==> !t.desc[d].present)
    && t.desc.Keys == s.desc.Keys
    && var rest := W.DisksFor(s, vs[|ds|..], t.lists.diskFree);
       W.DisksFor(s, vs, s.lists.diskFree) == if rest == None then None else Some(ds + rest.value)
  }

  lemma WithoutKeeps(l: seq<nat>, p: nat, x: nat)
    requires x in l && x != p
    ensures x in Without(l, p)
  {}

  lemma WaitingStep(s: State, t: State, v: nat, d: nat, w: nat)
    requires Inv(s) && Waiting(s, t, v) && Waiting(s, t, w) && v != w && Fits(t, X.JobFor(s, v, d))
    requires forall x :: x in t.lists.diskFree ==> x in s.lists.diskFree
    requires W.DiskFor(s, v, t.lists.diskFree) == Some(d)
    ensures Waiting(s, Do(Take, t, X.JobFor(s, v, d)), w)
  {
    W.FirstGets(s, v, t.lists.diskFree);
    assert RoleOk(s.desc[w]) && Paired(s, w) && Paired(s, v);
    if s.desc[w].hasReserve && s.desc[v].hasReserve {
      WithoutKeeps(t.lists.diskReserve, d, s.desc[w].reserve.value);
    }
  }

  lemma TookShape(s: State, t: State, v: nat, d: nat)
    requires Waiting(s, t, v) && Fits(t, X.JobFor(s, v, d)) && W.DiskFor(s, v, t.lists.diskFree) == Some(d)
    requires forall x {:trigger t.desc[x]} :: x in t.desc ==> !t.desc[x].present
    ensures var u := Do(Take, t, X.JobFor(s, v, d));
      && u.lists.diskFree == (if s.desc[v].hasReserve then t.lists.diskFree else t.lists.diskFree[1..])
      && u.desc.Keys == t.desc.Keys
      && (forall x {:trigger u.desc[x]} :: x in u.desc ==> !u.desc[x].present)
  {}

  lemma TakingStep(s: State, t: State, vs: seq<nat>, ds: seq<nat>, d: nat)
    requires Inv(s) && vs <= s.lists.eviction && Taking(s, t, vs, ds) && |ds| < |vs|
    requires W.DiskFor(s, vs[|ds|], t.lists.diskFree) == Some(d)
    requires Fits(t, X.JobFor(s, vs[|ds|], d))
    ensures Taking(s, Do(Take, t, X.JobFor(s, vs[|ds|], d)), vs, ds + [d])
  {
    hide Inv, Do, Fits, Waiting, W.DisksFor, W.DiskFor, X.JobFor;
    var (i, v) := (|ds|, vs[|ds|]);
    W.BatchFacts(s, vs);
    var u := Do(Take, t, X.JobFor(s, v, d));
    assert Waiting(s, t, v);
    TookShape(s, t, v, d);
    TakingRest(s, vs, ds, d, t.lists.diskFree, u.lists.diskFree);
    forall k | i + 1 <= k < |vs| ensures Waiting(s, u, vs[k]) {
      assert Waiting(s, t, vs[k]) && vs[k] != v;
      WaitingStep(s, t, v, d, vs[k]);
    }
  }

  lemma TakingRest(s: State, vs: seq<nat>, ds: seq<nat>, d: nat, free: seq<nat>, free': seq<nat>)
    requires |ds| < |vs| && (forall v :: v in vs ==> v in s.desc)
    requires W.DiskFor(s, vs[|ds|], free) == Some(d)
    requires free' == if s.desc[vs[|ds|]].hasReserve then free else free[1..]
    ensures var (rest, more) := (W.DisksFor(s, vs[|ds|..], free), W.DisksFor(s, vs[|ds| + 1..], free'));
      && (rest == None <==> more == None)
      && (rest.Some? ==> ds + rest.value == ds + [d] + more.value)
  {
    assert vs[|ds|..][0] == vs[|ds|] && vs[|ds|..][1..] == vs[|ds| + 1..];
  }

  lemma TakingFits(s: State, t: State, v: nat, free: seq<nat>)
    requires Inv(s) && Waiting(s, t, v) && t.desc.Keys == s.desc.Keys
    requires forall x :: x in free ==> x in s.lists.diskFree
    requires W.DiskFor(s, v, free).Some?
    ensures var d := W.DiskFor(s, v, free).value;
      Fits(t, X.JobFor(s, v, d)) && (s.desc[v].hasReserve ==> d in t.lists.diskReserve)
  {
    W.FirstGets(s, v, free);
    assert RoleOk(s.desc[v]);
  }

  lemma JobsMore(s: State, vs: seq<nat>, ds: seq<nat>, v: nat, d: nat)
    requires |vs| == |ds| && v in s.desc && forall x :: x in vs ==> x in s.desc
    ensures W.JobsFor(s, vs + [v], ds + [d]) == W.JobsFor(s, vs, ds) + [X.JobFor(s, v, d)]
  {}

  lemma AllFitMore(s: State, jobs: seq<Job>, j: Job)
    requires AllFit(s, jobs) && Fits(s, j)
    ensures AllFit(s, jobs + [j])
  {
    hide Fits;
    forall i | 0 <= i < |jobs + [j]| ensures Fits(s, (jobs + [j])[i]) {
      assert (jobs + [j])[i] == if i < |jobs| then jobs[i] else j;
    }
  }

  lemma SameFits(s: State, t: State, j: Job)
    requires Fits(t, j) && j.victim in s.desc && s.desc.Keys == t.desc.Keys && s.desc[j.victim].va == t.desc[j.victim].va
    ensures Fits(s, j)
  {}

  /** The state after slots `ds` were taken for the first victims of `vs`. */
  ghost predicate TakenFor(s: State, start: State, t: State, vs: seq<nat>, ds: seq<nat>) {
    && Taking(s, t, vs, ds)
    && start.desc.Keys == s.desc.Keys && t.desc.Keys == s.desc.Keys
    && (forall v :: v in vs ==> v in start.desc && start.desc[v].va == s.desc[v].va)
    && var jobs := W.JobsFor(s, vs[..|ds|], ds);
       AllFit(start, jobs) && t == Sweep(Take, start, jobs)
  }

  lemma NextTaken(s: State, t: State, vs: seq<nat>, ds: seq<nat>, d: nat)
    requires Inv(s) && Taking(s, t, vs, ds) && |ds| < |vs|
    requires W.DiskFor(s, vs[|ds|], t.lists.diskFree) == Some(d)
    ensures vs[|ds|] in s.desc && Fits(t, X.JobFor(s, vs[|ds|], d))
  {
    hide Inv;
    assert Waiting(s, t, vs[|ds|]);
    TakingFits(s, t, vs[|ds|], t.lists.diskFree);
  }

  lemma SweptMore(s: State, start: State, t: State, vs: seq<nat>, ds: seq<nat>, d: nat)
    requires |ds| < |vs| && (forall v :: v in vs ==> v in s.desc) && Fits(start, X.JobFor(s, vs[|ds|], d))
    requires var jobs := W.JobsFor(s, vs[..|ds|], ds); AllFit(start, jobs) && t == Sweep(Take, start, jobs)
    ensures var jobs := W.JobsFor(s, vs[..|ds| + 1], ds + [d]);
      && AllFit(start, jobs) && Fits(t, X.JobFor(s, vs[|ds|], d))
      && Do(Take, t, X.JobFor(s, vs[|ds|], d)) == Sweep(Take, start, jobs)
  {
    hide Do, Fits, Sweep, X.JobFor;
    var (v, jobs) := (vs[|ds|], W.JobsFor(s, vs[..|ds|], ds));
    assert vs[..|ds| + 1] == vs[..|ds|] + [v];
    JobsMore(s, vs[..|ds|], ds, v, d);
    AllFitMore(start, jobs, X.JobFor(s, v, d));
    SweepMore(Take, start, jobs, X.JobFor(s, v, d));
  }

  lemma TakenMore(s: State, start: State, t: State, vs: seq<nat>, ds: seq<nat>, d: nat)
    requires Inv(s) && vs <= s.lists.eviction && TakenFor(s, start, t, vs, ds) && |ds| < |vs|
    requires W.DiskFor(s, vs[|ds|], t.lists.diskFree) == Some(d)
    ensures vs[|ds|] in s.desc && Fits(t, X.JobFor(s, vs[|ds|], d))
    ensures TakenFor(s, start, Do(Take, t, X.JobFor(s, vs[|ds|], d)), vs, ds + [d])
  {
    hide Inv, Do, Fits, Sweep, Taking, W.JobsFor, W.DiskFor, AllFit;
    TakingKeys(s, t, vs, ds);
    NextTaken(s, t, vs, ds, d);
    TakingStep(s, t, vs, ds, d);
    SameFits(start, t, X.JobFor(s, vs[|ds|], d));
    SweptMore(s, start, t, vs, ds, d);
  }

  lemma TakingKeys(s: State, t: State, vs: seq<nat>, ds: seq<nat>)
    requires Taking(s, t, vs, ds)
    ensures |ds| <= |vs| && (forall v :: v in vs ==> v in s.desc) && t.desc.Keys == s.desc.Keys
    ensures forall k {:trigger vs[k]} :: |ds| <= k < |vs| ==> vs[k] in t.desc && t.desc[vs[k]].va == s.desc[vs[k]].va
  {
    forall k {:trigger vs[k]} | |ds| <= k < |vs| ensures vs[k] in t.desc && t.desc[vs[k]].va == s.desc[vs[k]].va {
      assert Waiting(s, t, vs[k]);
    }
  }

  lemma NonePresent(s: State, start: State, vs: seq<nat>)
    requires Inv(s) && vs <= s.lists.eviction && start == MarkedMany(Picked(s, vs), vs)
    ensures start.desc.Keys == s.desc.Keys && start.lists.diskFree == s.lists.diskFree
    ensures forall d {:trigger start.desc[d]} :: d in start.desc ==> !start.desc[d].present && start.desc[d].va == s.desc[d].va
  {
    forall d {:trigger start.desc[d]} | d in start.desc
      ensures !start.desc[d].present && start.desc[d].va == s.desc[d].va
    {
      assert RoleOk(s.desc[d]);
    }
  }

  lemma TakenStart(s: State, start: State, vs: seq<nat>)
    requires Inv(s) && vs <= s.lists.eviction && start == MarkedMany(Picked(s, vs), vs)
    ensures TakenFor(s, start, start, vs, [])
  {
    hide Inv, MarkedMany, Picked, Waiting;
    W.BatchFacts(s, vs);
    NonePresent(s, start, vs);
    assert vs[0..] == vs && vs[..0] == [];
    assert W.JobsFor(s, [], []) == [];
    forall k | 0 <= k < |vs| ensures Waiting(s, start, vs[k]) {
      WaitingStart(s, start, vs, vs[k]);
    }
    forall rest: seq<nat> ensures [] + rest == rest {}
  }

  lemma WaitingStart(s: State, start: State, vs: seq<nat>, v: nat)
    requires Inv(s) && vs <= s.lists.eviction && start == MarkedMany(Picked(s, vs), vs) && v in vs
    requires v in s.desc && s.desc[v].list == Some(Eviction)
    ensures Waiting(s, start, v)
  {
    assert RoleOk(s.desc[v]) && Paired(s, v);
    if s.desc[v].hasReserve {
      assert RoleOk(s.desc[s.desc[v].reserve.value]);
      assert Machine.Linked(s, s.desc[v].reserve.value);
    }
  }

  /** Whether the next victim finds a slot decides the whole search. */
  lemma NextDisk(s: State, t: State, vs: seq<nat>, ds: seq<nat>)
    requires Taking(s, t, vs, ds)
    ensures |ds| < |vs| && W.DiskFor(s, vs[|ds|], t.lists.diskFree) == None ==> W.DisksFor(s, vs, s.lists.diskFree) == None
    ensures |ds| == |vs| ==> W.DisksFor(s, vs, s.lists.diskFree) == Some(ds)
  {
    if |ds| < |vs| {
      assert vs[|ds|..][0] == vs[|ds|];
    } else {
      assert vs[|ds|..] == [] && ds + [] == ds;
    }
  }

  lemma WaitingFits(s: State, t: State, vs: seq<nat>, ds: seq<nat>)
    requires Inv(s) && Taking(s, t, vs, ds) && |ds| < |vs|
    ensures vs[|ds|] in t.desc && DiskFit(t, vs[|ds|])
  {
    assert Waiting(s, t, vs[|ds|]);
    if t.lists.diskFree != [] {
      assert t.lists.diskFree[0] in s.lists.Get(DiskFree);
    }
  }

  method TakeOne(g: P.Pager, page: UserPage, ghost s: State, ghost start: State, ghost vs: seq<nat>, ghost ds: seq<nat>)
      returns (disk: UserPage?)
    requires g.Valid() && g.Known(page) && Inv(s) && vs <= s.lists.eviction && TakenFor(s, start, g.state, vs, ds)
    requires |ds| < |vs| && page.addr == vs[|ds|]
    modifies g.Repr()
    ensures g.Valid() && g.pages == old(g.pages)
    ensures disk == null ==> W.DisksFor(s, vs, s.lists.diskFree) == None
    ensures disk != null ==> g.Known(disk) && TakenFor(s, start, g.state, vs, ds + [disk.addr])
  {
    hide P.Pager.Valid, Inv, Do, Fits, Sweep;
    assert Waiting(s, g.state, vs[|ds|]);
    WaitingFits(s, g.state, vs, ds);
    NextDisk(s, g.state, vs, ds);
    ghost var t := g.state;
    disk := TakeDisk(g, page);
    if disk != null {
      TakenMore(s, start, t, vs, ds, disk.addr);
    }
  }

  /** A disk descriptor for each victim, up to the first that finds none. */
  method TakeAll(g: P.Pager, victim: array<UserPage?>, disk: array<UserPage?>, n: nat, ghost s: State, ghost vs: seq<nat>)
      returns (ok: bool, ghost ds: seq<nat>)
    requires g.Valid() && n == |vs| <= disk.Length && Vector(g, victim, vs) && victim != disk
    requires Inv(s) && vs <= s.lists.eviction && g.state == MarkedMany(Picked(s, vs), vs)
    requires victim !in g.Repr() && disk !in g.Repr()
    modifies g.Repr(), disk
    ensures g.Valid() && g.pages == old(g.pages) && Vector(g, victim, vs)
    ensures forall v :: v in vs ==> v in s.desc
    ensures ok <==> W.DisksFor(s, vs, s.lists.diskFree).Some?
    ensures ok ==> W.DisksFor(s, vs, s.lists.diskFree) == Some(ds) && Vector(g, disk, ds)
    ensures ok ==> AllFit(old(g.state), W.JobsFor(s, vs, ds)) && g.state == Sweep(Take, old(g.state), W.JobsFor(s, vs, ds))
  {
    hide P.Pager.Valid, Inv, MarkedMany, Picked, TakenFor;
    ghost var start := g.state;
    TakenStart(s, start, vs);
    ds := [];
    var i := 0;
    while i < n
      invariant i <= n && |ds| == i && g.Valid() && g.pages == old(g.pages) && Vector(g, victim, vs) && Vector(g, disk, ds)
      invariant TakenFor(s, start, g.state, vs, ds)
    {
      var page := TakeOne(g, victim[i], s, start, vs, ds);
      if page == null {
        W.BatchFacts(s, vs);
        return false, ds;
      }
      disk[i] := page;
      ds := ds + [page.addr];
      i := i + 1;
    }
    TakenEnd(s, start, g.state, vs, ds);
    ok := true;
  }

  lemma TakenEnd(s: State, start: State, t: State, vs: seq<nat>, ds: seq<nat>)
    requires TakenFor(s, start, t, vs, ds) && |ds| == |vs|
    ensures forall v :: v in vs ==> v in s.desc
    ensures W.DisksFor(s, vs, s.lists.diskFree) == Some(ds)
    ensures AllFit(start, W.JobsFor(s, vs, ds)) && t == Sweep(Take, start, W.JobsFor(s, vs, ds))
  {
    NextDisk(s, t, vs, ds);
    assert vs[..|ds|] == vs;
  }

  // ----- settling the batch -----

  lemma {:induction false} SweepElsewhere(ph: Phase, s: State, jobs: seq<Job>, k: Job)
    requires AllFit(s, jobs) && Fits(s, k) && forall i :: 0 <= i < |jobs| ==> Apart(jobs[i], k)
    ensures Untouched(s, Sweep(ph, s, jobs), k)
    decreases |jobs|
  {
    hide Do, Apart;
    if jobs != [] {
      DoElsewhere(ph, s, jobs[0], k);
      SweepElsewhere(ph, Do(ph, s, jobs[0]), jobs[1..], k);
    }
  }

  lemma ApartSym(j: Job, k: Job)
    requires Apart(j, k)
    ensures Apart(k, j)
  {}

  /** A sweep does to each job what its phase does. */
  lemma {:induction false} SweepFields(ph: Phase, s: State, jobs: seq<Job>, k: nat)
    requires AllFit(s, jobs) && AllApart(jobs) && k < |jobs|
    ensures Fits(s, jobs[k]) && Fits(Sweep(ph, s, jobs), jobs[k])
    ensures var (t, j) := (Sweep(ph, s, jobs), jobs[k]);
      && t.desc[j.victim] == VictimAfter(ph, s.desc[j.victim], s.desc[j.disk])
      && t.desc[j.disk] == DiskAfter(ph, s.desc[j.victim], s.desc[j.disk], j.frame)
    decreases |jobs|
  {
    hide Do, Apart, VictimAfter, DiskAfter;
    var t := Do(ph, s, jobs[0]);
    assert Fits(s, jobs[0]) && Fits(s, jobs[k]);
    if k == 0 {
      DoFields(ph, s, jobs[0]);
      forall i | 0 <= i < |jobs[1..]| ensures Apart(jobs[1..][i], jobs[0]) { ApartSym(jobs[0], jobs[1..][i]); }
      SweepElsewhere(ph, t, jobs[1..], jobs[0]);
    } else {
      DoElsewhere(ph, s, jobs[0], jobs[k]);
      SweepFields(ph, t, jobs[1..], k - 1);
    }
  }

  /** Both descriptors of a job are on no list, and the frame is the sampled one. */
  ghost predicate Loose(s: State, j: Job) {
    j.victim in s.desc && s.desc[j.victim].list == None && j.disk in s.desc && s.desc[j.disk].list == None
  }

  method SettleAll(g: P.Pager, victim: array<UserPage?>, disk: array<UserPage?>, oldOffset: array<nat>, n: nat, ghost jobs: seq<Job>)
    requires g.Valid() && Ready(g, victim, disk, jobs) && n == |jobs| <= oldOffset.Length
    requires forall i {:trigger jobs[i]} :: 0 <= i < n ==>
      oldOffset[i] == jobs[i].frame && Loose(g.state, jobs[i]) && Down(g.state, jobs[i])
    requires victim !in g.Repr() && disk !in g.Repr() && oldOffset !in g.Repr()
    modifies g.Repr()
    ensures g.Valid() && g.pages == old(g.pages)
    ensures g.state == Sweep(Settle(true), old(g.state), jobs)
  {
    hide P.Pager.Valid, Do, Fits, Sweep, Apart;
    ghost var s := g.state;
    MidwayStart(Settle(true), s, jobs);
    var i := 0;
    while i < n
      invariant i <= n && g.Valid() && g.pages == old(g.pages) && Midway(Settle(true), s, g.state, jobs, i)
    {
      assert Loose(s, jobs[i]) && Down(s, jobs[i]) && Untouched(s, g.state, jobs[i]);
      MidwayStep(Settle(true), s, g.state, jobs, i);
      g.Look(victim[i]);
      g.Look(disk[i]);
      assert !disk[i].present;
      if victim[i].hasReserve {
        SettleReserved(g, victim[i], disk[i], oldOffset[i], true, jobs[i]);
      } else {
        SettleFresh(g, victim[i], disk[i], oldOffset[i], true, jobs[i]);
      }
      i := i + 1;
    }
    MidwayEnd(Settle(true), s, g.state, jobs);
  }

  // ----- the asserts on the way -----

  lemma GetsSturdy(s: State, v: nat, d: nat)
    requires Inv(s) && v in s.desc && s.desc[v].list == Some(Eviction) && W.Gets(s, v, d, s.lists.diskFree)
    ensures s.desc[v].va in s.mem.ram
    ensures Sturdy(s.desc[v].(migrating := true), s.desc[d], v, s.dramsize, s.disksize)
  {
    assert RoleOk(s.desc[v]) && RoleOk(s.desc[d]) && Paired(s, v) && Backed(s, v);
    InBounds(s, v);
    InBounds(s, d);
  }

  lemma {:induction false} SweepMemory(ph: Phase, s: State, jobs: seq<Job>)
    requires AllFit(s, jobs) && ph != Unmap
    ensures var t := Sweep(ph, s, jobs);
      t.mem.ram == s.mem.ram && t.dramsize == s.dramsize && t.disksize == s.disksize
    decreases |jobs|
  {
    hide Fits;
    if jobs != [] {
      SweepMemory(ph, Do(ph, s, jobs[0]), jobs[1..]);
    }
  }

  lemma SweptUpFields(s: State, jobs: seq<Job>, k: nat)
    requires AllFit(s, jobs) && AllApart(jobs) && k < |jobs|
    ensures var (t, j) := (SweptUp(s, jobs), jobs[k]);
      && Fits(s, j) && Fits(t, j)
      && t.desc[j.victim] == s.desc[j.victim].(list := None, migrating := true)
      && t.desc[j.disk] == s.desc[j.disk].(list := None)
      && t.mem.ram == s.mem.ram && t.dramsize == s.dramsize && t.disksize == s.disksize
  {
    hide Sweep, Apart;
    SweptFit(s, jobs);
    var s1 := Sweep(Pick, s, jobs);
    SweptFit(s1, jobs);
    var s2 := Sweep(Mark, s1, jobs);
    SweptFit(s2, jobs);
    SweepFields(Pick, s, jobs, k);
    SweepFields(Mark, s1, jobs, k);
    SweepFields(Take, s2, jobs, k);
    SweepMemory(Pick, s, jobs);
    SweepMemory(Mark, s1, jobs);
    SweepMemory(Take, s2, jobs);
  }

  /** Every victim of the batch passes the asserts before it is written out. */
  lemma BatchGoes(s: State, vs: seq<nat>, ds: seq<nat>, k: nat)
    requires Inv(s) && vs <= s.lists.eviction && (forall v :: v in vs ==> v in s.desc) && k < |vs|
    requires W.DisksFor(s, vs, s.lists.diskFree) == Some(ds)
    requires var jobs := W.JobsFor(s, vs, ds); AllFit(s, jobs) && AllApart(jobs)
    ensures Going(SweptUp(s, W.JobsFor(s, vs, ds)), W.JobsFor(s, vs, ds)[k])
  {
    hide Inv, SweptUp, Fits, Apart, W.DisksFor;
    W.BatchFacts(s, vs);
    NoDupFree(s);
    W.DisksFacts(s, vs, s.lists.diskFree);
    assert W.Gets(s, vs[k], ds[k], s.lists.diskFree);
    GetsSturdy(s, vs[k], ds[k]);
    SweptUpFields(s, W.JobsFor(s, vs, ds), k);
  }

  lemma NoDupFree(s: State)
    requires Inv(s)
    ensures NoDup(s.lists.diskFree)
  {
    assert NoDup(s.lists.Get(DiskFree));
  }

  /** And every one passes them when it is settled. */
  lemma BatchDown(s: State, jobs: seq<Job>, k: nat)
    requires AllFit(s, jobs) && AllApart(jobs) && k < |jobs| && Going(s, jobs[k])
    ensures Down(SweptDown(s, jobs), jobs[k])
  {
    hide Sweep, Apart;
    SweptFit(s, jobs);
    var s1 := Sweep(Write, s, jobs);
    SweptFit(s1, jobs);
    var s2 := Sweep(Unmap, s1, jobs);
    SweptFit(s2, jobs);
    var s3 := Sweep(Move, s2, jobs);
    SweepFields(Write, s, jobs, k);
    SweepFields(Unmap, s1, jobs, k);
    SweepFields(Move, s2, jobs, k);
    SweepFields(Flag, s3, jobs, k);
  }

  /** After all phases but the last, every job is ready to be settled. */
  lemma AllLoose(s: State, jobs: seq<Job>, k: nat)
    requires AllFit(s, jobs) && AllApart(jobs) && k < |jobs|
    ensures AllFit(Sweep(Pick, s, jobs), jobs)
    ensures AllFit(Sweep(Mark, Sweep(Pick, s, jobs), jobs), jobs)
    ensures AllFit(Sweep(Take, Sweep(Mark, Sweep(Pick, s, jobs), jobs), jobs), jobs)
    ensures Loose(SweptDown(Sweep(Take, Sweep(Mark, Sweep(Pick, s, jobs), jobs), jobs), jobs), jobs[k])
  {
    hide Sweep, Fits, Apart;
    SweptFit(s, jobs);
    var s1 := Sweep(Pick, s, jobs);
    SweptFit(s1, jobs);
    var s2 := Sweep(Mark, s1, jobs);
    SweptFit(s2, jobs);
    var s3 := Sweep(Take, s2, jobs);
    SweptFit(s3, jobs);
    var s4 := Sweep(Write, s3, jobs);
    SweptFit(s4, jobs);
    var s5 := Sweep(Unmap, s4, jobs);
    SweptFit(s5, jobs);
    var s6 := Sweep(Move, s5, jobs);
    SweepFields(Pick, s, jobs, k);
    SweepFields(Mark, s1, jobs, k);
    SweepFields(Take, s2, jobs, k);
    SweepFields(Write, s3, jobs, k);
    SweepFields(Unmap, s4, jobs, k);
    SweepFields(Move, s5, jobs, k);
    SweepFields(Flag, s6, jobs, k);
    FitsBoth(Sweep(Flag, s6, jobs), jobs[k]);
  }

  lemma FitsBoth(s: State, j: Job)
    requires Fits(s, j)
    ensures j.victim in s.desc && j.disk in s.desc
  {}

  // ----- the whole pass -----

  lemma {:induction false} ByPhaseAppend(a: seq<Phase>, b: seq<Phase>, s: State, jobs: seq<Job>)
    requires AllFit(s, jobs)
    ensures AllFit(ByPhase(a, s, jobs), jobs)
    ensures ByPhase(a + b, s, jobs) == ByPhase(b, ByPhase(a, s, jobs), jobs)
  {
    hide Fits, Sweep;
    if a == [] {
      assert a + b == b;
    } else {
      assert (a + b)[0] == a[0] && (a + b)[1..] == a[1..] + b;
      SweptFit(s, jobs);
      ByPhaseAppend(a[1..], b, Sweep(a[0], s, jobs), jobs);
    }
  }

  lemma ByPhaseMore(phs: seq<Phase>, a: Phase, s: State, jobs: seq<Job>)
    requires AllFit(s, jobs)
    ensures AllFit(ByPhase(phs, s, jobs), jobs)
    ensures ByPhase(phs + [a], s, jobs) == Sweep(a, ByPhase(phs, s, jobs), jobs)
  {
    hide Fits, Sweep;
    ByPhaseAppend(phs, [a], s, jobs);
    SweptFit(ByPhase(phs, s, jobs), jobs);
    assert [a][1..] == [];
  }

  lemma ByPhaseSwept(s: State, jobs: seq<Job>)
    requires AllFit(s, jobs)
    ensures ByPhase([Write] + [Unmap] + [Move] + [Flag], s, jobs) == SweptDown(s, jobs)
  {
    hide Fits, Sweep, ByPhase;
    ByPhaseMore([], Write, s, jobs);
    ByPhaseNothing(s, jobs);
    assert [] + [Write] == [Write];
    ByPhaseMore([Write], Unmap, s, jobs);
    ByPhaseMore([Write] + [Unmap], Move, s, jobs);
    ByPhaseMore([Write] + [Unmap] + [Move], Flag, s, jobs);
  }

  lemma ByPhaseNothing(s: State, jobs: seq<Job>)
    requires AllFit(s, jobs)
    ensures ByPhase([], s, jobs) == s
  {}

  ghost function SweptUp(s: State, jobs: seq<Job>): (t: State)
    requires AllFit(s, jobs)
    ensures AllFit(t, jobs)
  {
    SweptFit(s, jobs);
    SweptFit(Sweep(Pick, s, jobs), jobs);
    SweptFit(Sweep(Mark, Sweep(Pick, s, jobs), jobs), jobs);
    Sweep(Take, Sweep(Mark, Sweep(Pick, s, jobs), jobs), jobs)
  }

  lemma ByPhaseUp(s: State, jobs: seq<Job>)
    requires AllFit(s, jobs)
    ensures ByPhase([Pick] + [Mark] + [Take], s, jobs) == SweptUp(s, jobs)
  {
    hide Fits, Sweep, ByPhase;
    ByPhaseMore([], Pick, s, jobs);
    ByPhaseNothing(s, jobs);
    assert [] + [Pick] == [Pick];
    ByPhaseMore([Pick], Mark, s, jobs);
    ByPhaseMore([Pick] + [Mark], Take, s, jobs);
  }

  lemma ByPhaseIs(s: State, jobs: seq<Job>)
    requires AllFit(s, jobs)
    ensures ByPhase(X.Worker(true), s, jobs) == Sweep(Settle(true), SweptDown(SweptUp(s, jobs), jobs), jobs)
  {
    hide Fits, Sweep, ByPhase, X.Worker, SweptDown, SweptUp;
    var (a, b) := ([Pick] + [Mark] + [Take], [Write] + [Unmap] + [Move] + [Flag]);
    WorkerSpelled(true);
    ByPhaseUp(s, jobs);
    ByPhaseAppend(a, b, s, jobs);
    ByPhaseSwept(SweptUp(s, jobs), jobs);
    ByPhaseMore(a + b, Settle(true), s, jobs);
  }

  lemma SampledAfterPick(s: State, vs: seq<nat>, p: nat, oldOffset: nat, writeback: bool, d: nat)
    requires vs <= s.lists.eviction && p in s.desc && Sampled(Picked(s, vs), p, oldOffset, writeback)
    ensures oldOffset == X.JobFor(s, p, d).frame && writeback == X.JobFor(s, p, d).writeback
  {}

  lemma BatchIsSwept(s: State, vs: seq<nat>, ds: seq<nat>)
    requires Inv(s) && vs <= s.lists.eviction && (forall v :: v in vs ==> v in s.desc) && |vs| == |ds|
    requires AllFit(s, W.JobsFor(s, vs, ds))
    ensures var jobs := W.JobsFor(s, vs, ds);
      && Victims(jobs) == vs && Disks(jobs) == ds
      && AllFit(Sweep(Mark, Sweep(Pick, s, jobs), jobs), jobs)
      && MarkedMany(Picked(s, vs), vs) == Sweep(Mark, Sweep(Pick, s, jobs), jobs)
  {
    hide Fits, Sweep, Picked, MarkedMany, Inv;
    var jobs := W.JobsFor(s, vs, ds);
    assert Victims(jobs) == vs && Disks(jobs) == ds;
    PickedIsSweep(s, jobs);
    SweptFit(s, jobs);
    MarkedIsSweep(Sweep(Pick, s, jobs), jobs);
    SweptFit(Sweep(Pick, s, jobs), jobs);
  }

  lemma BatchJobs(s: State, vs: seq<nat>, ds: seq<nat>)
    requires Inv(s) && vs <= s.lists.eviction
    ensures forall v :: v in vs ==> v in s.desc
    ensures W.DisksFor(s, vs, s.lists.diskFree) == Some(ds) ==> |ds| == |vs|
    ensures W.DisksFor(s, vs, s.lists.diskFree) == Some(ds) ==> AllFit(s, W.JobsFor(s, vs, ds)) && AllApart(W.JobsFor(s, vs, ds))
  {
    W.JobsFit(s, vs);
  }

  lemma PickedPages(s: State, vs: seq<nat>)
    requires Inv(s) && vs <= s.lists.eviction
    ensures forall i {:trigger vs[i]} :: 0 <= i < |vs| ==>
      vs[i] in Picked(s, vs).desc && Picked(s, vs).desc[vs[i]].va != 0 && Picked(s, vs).desc[vs[i]].va % PAGE_SIZE == 0
  {
    W.BatchFacts(s, vs);
    forall i {:trigger vs[i]} | 0 <= i < |vs|
      ensures vs[i] in s.desc && s.desc[vs[i]].va != 0 && s.desc[vs[i]].va % PAGE_SIZE == 0
    {
      assert RoleOk(s.desc[vs[i]]);
      InBounds(s, vs[i]);
    }
  }

  /** The victims are picked and marked, their bits sampled, and each given its
      disk descriptor. */
  method PrepareBatch(g: P.Pager, victim: array<UserPage?>, disk: array<UserPage?>, oldOffset: array<nat>,
                      writeback: array<bool>, size: nat)
      returns (ok: bool, n: nat, ghost ds: seq<nat>)
    requires g.Valid() && Inv(g.state) && victim != disk
    requires size <= victim.Length && size <= disk.Length && size <= oldOffset.Length && size <= writeback.Length
    requires victim !in g.Repr() && disk !in g.Repr() && oldOffset !in g.Repr() && writeback !in g.Repr()
    modifies g.Repr(), victim, disk, oldOffset, writeback
    ensures g.Valid() && g.pages == old(g.pages)
    ensures var vs := W.Batch(old(g.state), size);
      && n == |vs| && (forall v :: v in vs ==> v in old(g.state).desc)
      && (ok <==> W.DisksFor(old(g.state), vs, old(g.state).lists.diskFree).Some?)
    ensures ok ==> W.DisksFor(old(g.state), W.Batch(old(g.state), size), old(g.state).lists.diskFree) == Some(ds)
    ensures ok ==> Prepared(g, old(g.state), W.Batch(old(g.state), size), ds, victim, disk, oldOffset, writeback)
  {
    hide P.Pager.Valid, Inv, Fits, Sweep, Apart, Sampled, MarkedMany, Picked;
    ghost var s := g.state;
    ghost var vs := W.Batch(s, size);
    BatchJobs(s, s.lists.eviction, []);
    n := PickAll(g, victim, size);
    PickedPages(s, vs);
    MarkAll(g, victim, oldOffset, writeback, n, vs);
    ok, ds := TakeAll(g, victim, disk, n, s, vs);
    BatchJobs(s, vs, ds);
    if ok {
      BatchIsSwept(s, vs, ds);
      forall i | 0 <= i < |vs|
        ensures oldOffset[i] == X.JobFor(s, vs[i], ds[i]).frame && writeback[i] == X.JobFor(s, vs[i], ds[i]).writeback
      {
        assert vs[i] in s.desc;
        SampledAfterPick(s, vs, vs[i], oldOffset[i], writeback[i], ds[i]);
      }
      assert g.state == SweptUp(s, W.JobsFor(s, vs, ds));
    }
  }

  ghost predicate Prepared(g: P.Pager, s: State, vs: seq<nat>, ds: seq<nat>, victim: array<UserPage?>,
                           disk: array<UserPage?>, oldOffset: array<nat>, writeback: array<bool>)
    reads g, victim, disk, oldOffset, writeback
  {
    && |vs| == |ds| <= writeback.Length && |ds| <= oldOffset.Length && (forall v :: v in vs ==> v in s.desc)
    && var jobs := W.JobsFor(s, vs, ds);
    && AllFit(s, jobs) && AllApart(jobs) && g.state == SweptUp(s, jobs)
    && Vector(g, victim, Victims(jobs)) && Vector(g, disk, Disks(jobs))
    && (forall i {:trigger jobs[i]} :: 0 <= i < |jobs| ==> oldOffset[i] == jobs[i].frame && writeback[i] == jobs[i].writeback)
  }

  lemma ReadyBatch(s: State, jobs: seq<Job>)
    requires AllFit(s, jobs) && AllApart(jobs)
    ensures forall k {:trigger jobs[k]} :: 0 <= k < |jobs| ==> Loose(SweptDown(SweptUp(s, jobs), jobs), jobs[k])
  {
    hide Fits, Sweep, Apart, Loose, SweptDown;
    forall k | 0 <= k < |jobs| ensures Loose(SweptDown(SweptUp(s, jobs), jobs), jobs[k]) { AllLoose(s, jobs, k); }
  }

  /** One pass of the vector worker; false when it stops for want of a slot. */
  method EvictionWorkerVector(g: P.Pager, size: nat) returns (ok: bool)
    requires g.Valid() && Inv(g.state)
    modifies g.Repr()
    ensures g.Valid() && g.pages == old(g.pages)
    ensures ok <==> W.EvictVector(old(g.state), size).Some?
    ensures ok ==> W.EvictVector(old(g.state), size) == Some(g.state)
  {
    hide P.Pager.Valid, Inv, Fits, Sweep, ByPhase, X.Worker, SweptDown, SweptUp, Apart, Loose, Going, Down;
    ghost var s := g.state;
    ghost var vs := W.Batch(s, size);
    var victim := new UserPage?[size];
    var disk := new UserPage?[size];
    var oldOffset := new nat[size];
    var writeback := new bool[size];
    ghost var ds;
    var n;
    ok, n, ds := PrepareBatch(g, victim, disk, oldOffset, writeback, size);
    BatchJobs(s, vs, ds);
    if ok {
      ghost var jobs := W.JobsFor(s, vs, ds);
      ReadyBatch(s, jobs);
      forall k | 0 <= k < n ensures Going(g.state, jobs[k]) && Down(SweptDown(g.state, jobs), jobs[k]) {
        BatchGoes(s, vs, ds, k);
        BatchDown(g.state, jobs, k);
      }
      MigrateDownVector(g, n, victim, disk, writeback, jobs);
      SettleAll(g, victim, disk, oldOffset, n, jobs);
      ByPhaseIs(s, jobs);
    }
  }
}
