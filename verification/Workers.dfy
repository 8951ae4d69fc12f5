/** The eviction workers of disklinux.c: the scalar pass, the vector pass, and
    why the two do the same. */
module Workers {
  import opened Machine
  import opened Evict
  import opened Exchange

  /** The disk descriptor for a victim, or none when the slots have run out. */
  function DiskFor(s: State, v: nat, free: seq<nat>): Option<nat>
    requires v in s.desc
  {
    if s.desc[v].hasReserve then s.desc[v].reserve
    else if free == [] then None
    else Some(free[0])
  }

  lemma HeadOfEviction(s: State)
    requires Inv(s) && s.lists.eviction != []
    ensures s.lists.eviction[0] in s.desc
    ensures s.desc[s.lists.eviction[0]].list == Some(Eviction)
    ensures var v := s.lists.eviction[0];
      DiskFor(s, v, s.lists.diskFree).Some? ==> Chosen(s, v, DiskFor(s, v, s.lists.diskFree).value)
  {
    assert s.lists.eviction[0] in s.lists.Get(Eviction);
  }

  /** One pass of the scalar worker; none when it stops at "no disk page found". */
  ghost function EvictOne(s: State): (r: Option<State>)
    requires Inv(s)
    ensures r.Some? ==> Inv(r.value)
  {
    if s.lists.eviction == [] then Some(s)
    else
      HeadOfEviction(s);
      var v := s.lists.eviction[0];
      var d := DiskFor(s, v, s.lists.diskFree);
      if d == None then None
      else
        RunExchanges(s, v, d.value, true);
        ExchangeKeeps(s, v, d.value, true);
        Some(Run(Worker(true), s, JobFor(s, v, d.value)))
  }

  ghost function EvictTimes(s: State, n: nat): (r: Option<State>)
    requires Inv(s)
    ensures r.Some? ==> Inv(r.value)
    decreases n
  {
    if n == 0 then Some(s)
    else
      var t := EvictOne(s);
      if t == None then None else EvictTimes(t.value, n - 1)
  }

  /** The disk descriptors for a batch, in the order the worker takes them. */
  function DisksFor(s: State, vs: seq<nat>, free: seq<nat>): (r: Option<seq<nat>>)
    requires forall v :: v in vs ==> v in s.desc
    ensures r.Some? ==> |r.value| == |vs|
  {
    if vs == [] then Some([])
    else
      var d := DiskFor(s, vs[0], free);
      if d == None then None
      else
        var rest := DisksFor(s, vs[1..], if s.desc[vs[0]].hasReserve then free else free[1..]);
        if rest == None then None else Some([d.value] + rest.value)
  }

  function JobsFor(s: State, vs: seq<nat>, ds: seq<nat>): (r: seq<Job>)
    requires |vs| == |ds| && forall v :: v in vs ==> v in s.desc
    ensures |r| == |vs| && forall i :: 0 <= i < |r| ==> r[i] == JobFor(s, vs[i], ds[i])
  {
    seq(|vs|, i requires 0 <= i < |vs| => JobFor(s, vs[i], ds[i]))
  }

  function Batch(s: State, n: nat): seq<nat> {
    if n <= |s.lists.eviction| then s.lists.eviction[..n] else s.lists.eviction
  }

  lemma BatchFacts(s: State, vs: seq<nat>)
    requires Inv(s) && vs <= s.lists.eviction
    ensures forall v :: v in vs ==> v in s.desc && s.desc[v].list == Some(Eviction)
    ensures NoDup(vs)
  {
    assert NoDup(s.lists.Get(Eviction));
    forall v | v in vs ensures v in s.lists.Get(Eviction) {}
  }

  /** `d` is what a victim `v` gets: its own reserve, or one of the `free` slots. */
  ghost predicate Gets(s: State, v: nat, d: nat, free: seq<nat>)
    requires v in s.desc
  {
    && d in s.desc
    && !s.desc[d].inDram
    && (if s.desc[v].hasReserve then s.desc[v].reserve == Some(d) else d in free)
  }

  lemma FirstGets(s: State, v: nat, free: seq<nat>)
    requires Inv(s) && v in s.desc && s.desc[v].list == Some(Eviction)
    requires forall d :: d in free ==> d in s.lists.diskFree
    requires DiskFor(s, v, free).Some?
    ensures Gets(s, v, DiskFor(s, v, free).value, free)
  {
    var d := DiskFor(s, v, free).value;
    assert RoleOk(s.desc[v]) && Paired(s, v);
    if !s.desc[v].hasReserve {
      assert d in s.lists.Get(DiskFree);
      assert RoleOk(s.desc[d]);
    }
  }

  lemma GetsApart(s: State, v: nat, w: nat, d: nat, e: nat, free: seq<nat>)
    requires Inv(s) && v in s.desc && w in s.desc && v != w
    requires forall x :: x in free ==> x in s.lists.diskFree
    requires Gets(s, v, d, free) && Gets(s, w, e, free)
    requires s.desc[v].hasReserve || s.desc[w].hasReserve
    ensures d != e
  {
    assert RoleOk(s.desc[v]) && RoleOk(s.desc[w]) && Paired(s, v) && Paired(s, w);
    assert RoleOk(s.desc[d]) && RoleOk(s.desc[e]);
    if !s.desc[v].hasReserve {
      assert d in s.lists.Get(DiskFree);
    } else if !s.desc[w].hasReserve {
      assert e in s.lists.Get(DiskFree);
    }
  }

  /** Every victim of a batch gets its own reserve or a free slot of its own. */
  lemma {:induction false} DisksFacts(s: State, vs: seq<nat>, free: seq<nat>)
    requires Inv(s) && forall v :: v in vs ==> v in s.desc && s.desc[v].list == Some(Eviction)
    requires NoDup(vs) && NoDup(free) && forall d :: d in free ==> d in s.lists.diskFree
    requires DisksFor(s, vs, free).Some?
    ensures var ds := DisksFor(s, vs, free).value;
      NoDup(ds) && forall i :: 0 <= i < |vs| ==> Gets(s, vs[i], ds[i], free)
  {
    if vs != [] {
      var (v, rest) := (vs[0], vs[1..]);
      var free' := if s.desc[v].hasReserve then free else free[1..];
      var ds := DisksFor(s, vs, free).value;
      assert ds[1..] == DisksFor(s, rest, free').value;
      DisksFacts(s, rest, free');
      FirstGets(s, v, free);
      forall i | 1 <= i < |vs| ensures ds[i] != ds[0] && Gets(s, vs[i], ds[i], free) {
        assert vs[i] == rest[i - 1] && ds[i] == ds[1..][i - 1];
        assert Gets(s, rest[i - 1], ds[1..][i - 1], free');
        if s.desc[v].hasReserve || s.desc[vs[i]].hasReserve {
          GetsApart(s, v, vs[i], ds[0], ds[i], free);
        }
      }
    }
  }

  lemma JobsFit(s: State, vs: seq<nat>)
    requires Inv(s) && vs <= s.lists.eviction
    ensures forall v :: v in vs ==> v in s.desc
    ensures var ds := DisksFor(s, vs, s.lists.diskFree);
      ds.Some? ==> AllFit(s, JobsFor(s, vs, ds.value)) && AllApart(JobsFor(s, vs, ds.value))
  {
    BatchFacts(s, vs);
    var free := s.lists.diskFree;
    assert NoDup(s.lists.Get(DiskFree));
    if DisksFor(s, vs, free).Some? {
      var ds := DisksFor(s, vs, free).value;
      DisksFacts(s, vs, free);
      forall i | 0 <= i < |vs|
        ensures ds[i] in s.desc && !s.desc[ds[i]].inDram && Resident(s.desc[vs[i]]) && Tracked(s, vs[i])
      {
        assert Gets(s, vs[i], ds[i], free) && RoleOk(s.desc[vs[i]]);
      }
    }
  }

  /** One pass of the vector worker over a batch of at most `n` victims. */
  ghost function EvictVector(s: State, n: nat): (r: Option<State>)
    requires Inv(s)
  {
    JobsFit(s, Batch(s, n));
    var ds := DisksFor(s, Batch(s, n), s.lists.diskFree);
    if ds == None then None
    else Some(ByPhase(Worker(true), s, JobsFor(s, Batch(s, n), ds.value)))
  }

  lemma {:induction false} StableDisks(s: State, t: State, vs: seq<nat>, free: seq<nat>)
    requires forall v :: v in vs ==> v in s.desc && v in t.desc && t.desc[v] == s.desc[v]
    ensures DisksFor(t, vs, free) == DisksFor(s, vs, free)
  {
    if vs != [] && DiskFor(s, vs[0], free).Some? {
      StableDisks(s, t, vs[1..], if s.desc[vs[0]].hasReserve then free else free[1..]);
    }
  }

  /** Evicting one victim leaves every other victim's job as it was. */
  lemma StableJob(s: State, v: nat, d: nat, w: nat, e: nat)
    requires Inv(s) && Chosen(s, v, d) && d in s.desc
    requires w in s.desc && s.desc[w].list == Some(Eviction) && w != v
    ensures Exchanged(s, v, d, true).desc[w] == s.desc[w]
    ensures JobFor(Exchanged(s, v, d, true), w, e) == JobFor(s, w, e)
  {
    ChosenFacts(s, v, d);
    assert RoleOk(s.desc[w]) && Tracked(s, w) && Tracked(s, v);
  }

  lemma {:induction false} NothingToEvict(s: State, n: nat)
    requires Inv(s) && (n == 0 || s.lists.eviction == [])
    ensures EvictTimes(s, n) == Some(s)
    decreases n
  {
    if n != 0 {
      NothingToEvict(s, n - 1);
    }
  }

  /** The first victim of a batch, and the exchange that evicts it. */
  lemma FirstEviction(s: State) returns (v: nat, d: nat)
    requires Inv(s) && s.lists.eviction != [] && EvictOne(s).Some?
    ensures v == s.lists.eviction[0] && Chosen(s, v, d) && d in s.desc
    ensures DiskFor(s, v, s.lists.diskFree) == Some(d)
    ensures Fits(s, JobFor(s, v, d)) && EvictOne(s) == Some(Run(Worker(true), s, JobFor(s, v, d)))
    ensures EvictOne(s) == Some(Exchanged(s, v, d, true))
  {
    HeadOfEviction(s);
    v := s.lists.eviction[0];
    d := DiskFor(s, v, s.lists.diskFree).value;
    RunExchanges(s, v, d, true);
  }

  lemma RestOfBatch(s: State, v: nat, d: nat, n: nat)
    requires v in s.desc && d in s.desc && n > 0
    requires s.lists.eviction != [] && v == s.lists.eviction[0] && DiskFor(s, v, s.lists.diskFree) == Some(d)
    ensures var t := Exchanged(s, v, d, true);
      && Batch(t, n - 1) == Batch(s, n)[1..]
      && t.lists.diskFree == if s.desc[v].hasReserve then s.lists.diskFree else s.lists.diskFree[1..]
  {}

  lemma RestOfJobs(s: State, v: nat, d: nat, ws: seq<nat>, es: seq<nat>)
    requires Inv(s) && Chosen(s, v, d) && d in s.desc && |ws| == |es|
    requires forall w :: w in ws ==> w in s.desc && s.desc[w].list == Some(Eviction) && w != v
    ensures var t := Exchanged(s, v, d, true);
      && JobsFor(t, ws, es) == JobsFor(s, ws, es)
      && forall free :: DisksFor(t, ws, free) == DisksFor(s, ws, free)
  {
    var t := Exchanged(s, v, d, true);
    forall i | 0 <= i < |ws| ensures JobFor(t, ws[i], es[i]) == JobFor(s, ws[i], es[i]) {
      StableJob(s, v, d, ws[i], es[i]);
    }
    forall free ensures DisksFor(t, ws, free) == DisksFor(s, ws, free) {
      forall w | w in ws ensures t.desc[w] == s.desc[w] {
        StableJob(s, v, d, w, d);
      }
      StableDisks(s, t, ws, free);
    }
  }

  lemma BatchTail(s: State, n: nat)
    requires Inv(s) && n > 0 && s.lists.eviction != []
    ensures var (v, ws) := (s.lists.eviction[0], Batch(s, n)[1..]);
      forall w :: w in ws ==> w in s.desc && s.desc[w].list == Some(Eviction) && w != v
  {
    BatchFacts(s, Batch(s, n));
  }

  /** What `n` scalar passes do, written with the jobs of a whole batch. */
  ghost function Planned(s: State, n: nat): Option<State>
    requires Inv(s)
  {
    JobsFit(s, Batch(s, n));
    var ds := DisksFor(s, Batch(s, n), s.lists.diskFree);
    if ds == None then None
    else Some(ByVictim(Worker(true), s, JobsFor(s, Batch(s, n), ds.value)))
  }

  lemma DisksHead(s: State, vs: seq<nat>, free: seq<nat>, d: nat)
    requires vs != [] && (forall v :: v in vs ==> v in s.desc) && DiskFor(s, vs[0], free) == Some(d)
    ensures var es := DisksFor(s, vs[1..], if s.desc[vs[0]].hasReserve then free else free[1..]);
      DisksFor(s, vs, free) == if es == None then None else Some([d] + es.value)
  {}

  lemma JobsHead(s: State, vs: seq<nat>, d: nat, es: seq<nat>)
    requires vs != [] && |vs| == 1 + |es| && (forall v :: v in vs ==> v in s.desc)
    ensures JobsFor(s, vs, [d] + es) == [JobFor(s, vs[0], d)] + JobsFor(s, vs[1..], es)
  {}

  lemma ByVictimHead(phs: seq<Phase>, s: State, j: Job, jobs: seq<Job>, t: State)
    requires AllFit(s, [j] + jobs) && Fits(s, j) && t == Run(phs, s, j)
    ensures AllFit(t, jobs) && ByVictim(phs, s, [j] + jobs) == ByVictim(phs, t, jobs)
  {
    assert ([j] + jobs)[0] == j && ([j] + jobs)[1..] == jobs;
    forall i | 0 <= i < |jobs| ensures Fits(s, jobs[i]) {
      assert ([j] + jobs)[i + 1] == jobs[i];
    }
  }

  lemma PlannedFirst(s: State, n: nat)
    requires Inv(s) && n > 0 && s.lists.eviction != [] && EvictOne(s).Some?
    ensures Planned(s, n) == Planned(EvictOne(s).value, n - 1)
  {
    hide Inv, Exchanged, Do;
    var v, d := FirstEviction(s);
    var t := EvictOne(s).value;
    var (vs, free) := (Batch(s, n), s.lists.diskFree);
    JobsFit(s, vs);
    RestOfBatch(s, v, d, n);
    BatchTail(s, n);
    DisksHead(s, vs, free, d);
    var es := DisksFor(s, vs[1..], t.lists.diskFree);
    RestOfJobs(s, v, d, vs[1..], if es.Some? then es.value else vs[1..]);
    if es.Some? {
      JobsHead(s, vs, d, es.value);
      ByVictimHead(Worker(true), s, JobFor(s, v, d), JobsFor(s, vs[1..], es.value), t);
    }
  }

  lemma PlannedNothing(s: State, n: nat)
    requires Inv(s) && (n == 0 || s.lists.eviction == [])
    ensures Planned(s, n) == Some(s)
  {
    assert Batch(s, n) == [];
  }

  lemma PlannedNone(s: State, n: nat)
    requires Inv(s) && n > 0 && s.lists.eviction != [] && EvictOne(s) == None
    ensures Planned(s, n) == None
  {
    HeadOfEviction(s);
    assert Batch(s, n)[0] == s.lists.eviction[0];
  }

  lemma {:induction false} VictimsOneByOne(s: State, n: nat)
    requires Inv(s)
    ensures EvictTimes(s, n) == Planned(s, n)
    decreases n
  {
    hide Inv, EvictOne, Planned;
    if n == 0 || s.lists.eviction == [] {
      NothingToEvict(s, n);
      PlannedNothing(s, n);
    } else if EvictOne(s) == None {
      PlannedNone(s, n);
    } else {
      PlannedFirst(s, n);
      VictimsOneByOne(EvictOne(s).value, n - 1);
    }
  }

  lemma WorkerInOrder(release: bool)
    ensures InOrder(Worker(release))
  {
    var w := Worker(release);
    forall i | 0 <= i < |w| ensures Rank(w[i]) == i {}
  }

  /** A vector pass over `n` victims ends in exactly the state of `n` scalar
      passes, and stops for want of a disk page exactly when they would. */
  lemma VectorIsScalar(s: State, n: nat)
    requires Inv(s)
    ensures EvictVector(s, n) == EvictTimes(s, n)
  {
    VictimsOneByOne(s, n);
    JobsFit(s, Batch(s, n));
    var ds := DisksFor(s, Batch(s, n), s.lists.diskFree);
    if ds.Some? {
      WorkerInOrder(true);
      BatchIsIteration(Worker(true), s, JobsFor(s, Batch(s, n), ds.value));
    }
  }
}
