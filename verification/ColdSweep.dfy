/** The reclaim of a search in the protocol, over pages that nobody uses. */
module ColdSweep {
  import opened Machine
  import opened Protocol
  import opened Steps
  import opened Schedules
  import opened Exhaustion
  import Laws

  /** The search `j` is in its reclaim, with no page in hand; no inactive page was used,
      and none is active. */
  ghost predicate Sweeping(s: World, j: nat, p: nat, w: Sweep) {
    SearchIs(s, j, Search(p, AtScan(w, None))) && OnList(s, Active) == {} && s.accessed !! OnList(s, Inactive)
  }

  /** The page `va` awaits eviction, and the search has counted it. */
  function Swept(s: World, j: nat, va: nat, p: nat, w: Sweep): World
    requires va in s.pages && j in s.jobs && Searches(s.jobs[j])
  {
    SetSearch(SetPage(s, va, s.pages[va].(list := Some(Eviction), holder := None)), j,
              Search(p, AtScan(Counted(w, Eviction), None)))
  }

  function TakeOne(j: nat, k: nat, va: nat): seq<Action> {
    [SweepTake(j, k, va), Look(k), ScanPut(k, Eviction)]
  }

  /** Page after page is taken, looked at, and put on the eviction list. */
  function TakeAll(j: nat, k: nat, order: seq<nat>): seq<Action> {
    if order == [] then [] else TakeOne(j, k, order[0]) + TakeAll(j, k, order[1..])
  }

  /** The page `va` is in the hands of job `k`, which scans for the search. */
  function InHand(s: World, j: nat, k: nat, va: nat, p: nat, w: Sweep, job: Job): World
    requires va in s.pages && j in s.jobs && Searches(s.jobs[j])
  {
    s.(pages := s.pages[va := s.pages[va].(list := None, holder := Some(k))],
       jobs := s.jobs[k := job][j := s.jobs[j].(search := Search(p, AtScan(w, Some(k))))])
  }

  lemma TakeStep(s: World, j: nat, k: nat, va: nat, p: nat, w: Sweep)
    requires SearchIs(s, j, Search(p, AtScan(w, None))) && va in OnList(s, Inactive) && k !in s.jobs
    requires TurnOf(s, w) == Takes(Inactive)
    ensures Step(s, SweepTake(j, k, va)) == Go(InHand(s, j, k, va, p, w, Scanning(va, Some(j))))
  {
    hide Looks, TurnOf;
  }

  lemma LookStep(s: World, j: nat, k: nat, va: nat, p: nat, w: Sweep)
    requires va in s.pages && j in s.jobs && Searches(s.jobs[j]) && k !in s.jobs && va !in s.accessed
    ensures Step(InHand(s, j, k, va, p, w, Scanning(va, Some(j))), Look(k))
         == Go(InHand(s, j, k, va, p, w, Seen(va, Cold, Some(j))))
  {
    var t := InHand(s, j, k, va, p, w, Scanning(va, Some(j)));
    var u := InHand(s, j, k, va, p, w, Seen(va, Cold, Some(j)));
    assert s.accessed - {va} == s.accessed;
    assert t.jobs[k := Seen(va, Cold, Some(j))] == u.jobs;
  }

  lemma PutStep(s: World, j: nat, k: nat, va: nat, p: nat, w: Sweep)
    requires va in s.pages && j in s.jobs && Searches(s.jobs[j]) && k !in s.jobs
    ensures Step(InHand(s, j, k, va, p, w, Seen(va, Cold, Some(j))), ScanPut(k, Eviction)) == Go(Swept(s, j, va, p, w))
  {
    hide DoScanPut, InHand, Swept;
    PutEnds(s, j, k, va, p, w);
  }

  lemma PutEnds(s: World, j: nat, k: nat, va: nat, p: nat, w: Sweep)
    requires va in s.pages && j in s.jobs && Searches(s.jobs[j]) && k !in s.jobs
    ensures DoScanPut(InHand(s, j, k, va, p, w, Seen(va, Cold, Some(j))), k, Eviction) == Go(Swept(s, j, va, p, w))
  {
    hide Counted;
    var (t, u) := (InHand(s, j, k, va, p, w, Seen(va, Cold, Some(j))), Swept(s, j, va, p, w));
    assert t.pages[va := t.pages[va].(list := Some(Eviction), holder := None)] == u.pages;
    assert (t.jobs - {k})[j := u.jobs[j]] == u.jobs;
  }

  lemma OneTaken(s: World, j: nat, k: nat, va: nat, p: nat, w: Sweep)
    requires Sweeping(s, j, p, w) && TurnOf(s, w) == Takes(Inactive)
    requires va in OnList(s, Inactive) && k !in s.jobs
    ensures Run(s, TakeOne(j, k, va)) == Go(Swept(s, j, va, p, w))
  {
    hide Run, Step, InHand, Swept, Looks, TurnOf;
    TakeStep(s, j, k, va, p, w);
    LookStep(s, j, k, va, p, w);
    PutStep(s, j, k, va, p, w);
    RunThree(s, SweepTake(j, k, va), Look(k), ScanPut(k, Eviction));
  }

  lemma SweptLists(s: World, j: nat, va: nat, p: nat, w: Sweep)
    requires Sweeping(s, j, p, w) && va in OnList(s, Inactive)
    ensures var t := Swept(s, j, va, p, w);
      && Sweeping(t, j, p, Counted(w, Eviction)) && t.jobs.Keys == s.jobs.Keys
      && OnList(t, Inactive) == OnList(s, Inactive) - {va} && OnList(t, Eviction) == OnList(s, Eviction) + {va}
  {
    hide Counted;
    var (u, x) := (SetPage(s, va, s.pages[va].(list := Some(Eviction), holder := None)),
                   Search(p, AtScan(Counted(w, Eviction), None)));
    PageLooks(s, j, va, s.pages[va].(list := Some(Eviction), holder := None));
    SetLooks(u, j, x);
    hide Looks;
  }

  lemma PageLooks(s: World, j: nat, va: nat, page: Page)
    requires Looks(s, j)
    ensures Looks(SetPage(s, va, page), j)
  {}

  /** Of a cluster of `nr` pages `ret` are swept; those in `order` follow. */
  lemma {:induction false} AllTaken(s: World, j: nat, k: nat, order: seq<nat>, p: nat, w: Sweep)
    requires Sweeping(s, j, p, w) && w.part.OnInactive? && w.part.ret == w.part.tries && k !in s.jobs
    requires w.part.ret + |order| <= w.part.nr && NoDup(order) && SetOf(order) <= OnList(s, Inactive)
    ensures var (n, r) := (w.part.ret + |order|, Run(s, TakeAll(j, k, order)));
      && r.Next? && Sweeping(r.world, j, p, w.(part := OnInactive(w.part.nr, n, n)))
      && OnList(r.world, Inactive) == OnList(s, Inactive) - SetOf(order)
      && OnList(r.world, Eviction) == OnList(s, Eviction) + SetOf(order)
    decreases |order|
  {
    hide Run, Swept, TurnOf, OnList, TakeOne;
    if order == [] {
      NoneTaken(s, j, k);
      assert w.(part := OnInactive(w.part.nr, w.part.ret, w.part.ret)) == w;
    } else {
      var va := order[0];
      assert va in SetOf(order);
      StillTakes(s, w, va);
      OneTaken(s, j, k, va, p, w);
      SweptLists(s, j, va, p, w);
      var t := Swept(s, j, va, p, w);
      AllTaken(t, j, k, order[1..], p, Counted(w, Eviction));
      RunJoin(s, TakeOne(j, k, va), TakeAll(j, k, order[1..]));
      assert order == [va] + order[1..] && SetOf(order) == {va} + SetOf(order[1..]);
    }
  }

  lemma StillTakes(s: World, w: Sweep, va: nat)
    requires w.part.OnInactive? && w.part.ret == w.part.tries < w.part.nr && va in OnList(s, Inactive)
    ensures TurnOf(s, w) == Takes(Inactive) && va in s.pages
  {}

  lemma NoneTaken(s: World, j: nat, k: nat)
    ensures Run(s, TakeAll(j, k, [])) == Go(s)
  {}

  // ----- the whole reclaim -----

  /** A round reclaims a cluster, with nothing active and more than half of DRAM inactive,
      of which a share is looked at; no inactive page was used. */
  ghost predicate Idle(s: World, j: nat, p: nat) {
    && SearchIs(s, j, Search(p, AtReclaim)) && p > 0
    && OnList(s, Active) == {} && |OnList(s, Inactive)| > |s.frames| / 2 && ShiftRight(|OnList(s, Inactive)|, p) > 0
    && s.accessed !! OnList(s, Inactive)
  }

  /** The counters when the first page is due. */
  function Opened(n: nat, p: nat): Sweep {
    Sweep(ShiftRight(n, p), 0, 32, 0, 0, OnInactive(if n < 32 then n else 32, 0, 0))
  }

  lemma {:induction false} NothingShifted(p: nat)
    ensures ShiftRight(0, p) == 0
  {
    if p > 0 { NothingShifted(p - 1); }
  }

  lemma Opens(s: World, j: nat, p: nat)
    requires Idle(s, j, p)
    ensures var (n, r) := (|OnList(s, Inactive)|, Run(s, [Reclaim(j, false)] + [SweepOn(j)]));
      && r.Next? && Sweeping(r.world, j, p - 1, Opened(n, p)) && r.world.jobs.Keys == s.jobs.Keys
      && OnList(r.world, Inactive) == OnList(s, Inactive) && OnList(r.world, Eviction) == OnList(s, Eviction)
  {
    hide Run, Step, Looks, SetSearch, ShiftRight;
    var n := |OnList(s, Inactive)|;
    NothingShifted(p);
    ReclaimStep(s, j, p);
    var x := Search(p - 1, AtScan(StartSweep(s, p), None));
    SetFacts(s, j, x);
    OpenStep(SetSearch(s, j, x), j, p - 1, StartSweep(s, p));
    SetFacts(SetSearch(s, j, x), j, Search(p - 1, AtScan(Opened(n, p), None)));
    OneStep(s, Reclaim(j, false));
    RunThenStep(s, [Reclaim(j, false)], SweepOn(j));
  }

  lemma SetFacts(s: World, j: nat, x: Search)
    requires Looks(s, j)
    ensures j in s.jobs && Searches(s.jobs[j]) && SearchIs(SetSearch(s, j, x), j, x)
    ensures var t := SetSearch(s, j, x);
      && t.jobs.Keys == s.jobs.Keys && t.accessed == s.accessed && forall q :: OnList(t, q) == OnList(s, q)
  {
    LooksSupplied(s, j, 0);
    SetLooks(s, j, x);
    hide Looks;
    forall q ensures OnList(SetSearch(s, j, x), q) == OnList(s, q) {}
  }

  lemma OpenStep(s: World, j: nat, p: nat, w: Sweep)
    requires SearchIs(s, j, Search(p, AtScan(w, None))) && w.part == Between
    requires w.toActive == 0 && w.doneInactive == w.doneActive == w.reclaimed == 0 && w.toInactive > 0
    ensures var n := |OnList(s, Inactive)|;
      var w' := Sweep(w.toInactive, 0, 32, 0, 0, OnInactive(if n < 32 then n else 32, 0, 0));
      Step(s, SweepOn(j)) == Go(SetSearch(s, j, Search(p, AtScan(w', None))))
  {
    hide Looks;
  }

  /** Before the cluster is full, the search has nothing to do but take a page. */
  lemma MustTake(s: World, j: nat, p: nat, w: Sweep)
    requires Sweeping(s, j, p, w) && w.part.OnInactive? && w.part.ret == w.part.tries < w.part.nr
    requires OnList(s, Inactive) != {}
    ensures Step(s, SweepOn(j)) == Blocked
  {
    hide Looks, OnList;
  }

  /** A full cluster ends the reclaim, in two steps. */
  lemma Closes(s: World, j: nat, p: nat, w: Sweep)
    requires Sweeping(s, j, p, w) && w.part.OnInactive? && w.part.ret == w.part.nr && w.toActive == w.doneActive == 0
    requires w.doneInactive == 32 && w.reclaimed == 0 && (w.part.nr == 32 || w.toInactive <= 32)
    ensures var r := Run(s, [SweepOn(j)] + [SweepOn(j)]);
      && r.Next? && SearchIs(r.world, j, Search(p, AtVictim))
      && OnList(r.world, Inactive) == OnList(s, Inactive) && OnList(r.world, Eviction) == OnList(s, Eviction)
  {
    hide Run, Step, Looks, SetSearch, OnList;
    var x := w.(reclaimed := w.part.ret, part := Between);
    CloseStep(s, j, p, w);
    SetFacts(s, j, Search(p, AtScan(x, None)));
    var t := SetSearch(s, j, Search(p, AtScan(x, None)));
    OverStep(t, j, p, x);
    SetFacts(t, j, Search(p, AtVictim));
    OneStep(s, SweepOn(j));
    RunThenStep(s, [SweepOn(j)], SweepOn(j));
  }

  lemma CloseStep(s: World, j: nat, p: nat, w: Sweep)
    requires SearchIs(s, j, Search(p, AtScan(w, None))) && w.part.OnInactive? && w.part.ret == w.part.nr
    requires w.toActive == w.doneActive == 0 && w.reclaimed == 0
    ensures var w' := w.(reclaimed := w.part.ret, part := Between);
      Step(s, SweepOn(j)) == Go(SetSearch(s, j, Search(p, AtScan(w', None))))
  {
    hide Looks, OnList;
  }

  lemma OverStep(s: World, j: nat, p: nat, w: Sweep)
    requires SearchIs(s, j, Search(p, AtScan(w, None))) && w.part == Between
    requires w.reclaimed >= 32 || w.doneInactive >= w.toInactive
    ensures Step(s, SweepOn(j)) == Go(SetSearch(s, j, Search(p, AtVictim)))
  {
    hide Looks, OnList;
  }

  lemma {:induction false} ShiftLess(n: nat, p: nat)
    ensures ShiftRight(n, p) <= n
  {
    if p > 0 { ShiftLess(n / 2, p - 1); }
  }

  /** The reclaim of a search that nobody disturbs takes 32 of the inactive pages, or all
      if there are fewer, whichever they are, and puts them on the eviction list; it
      cannot end before. */
  lemma ReclaimsCluster(s: World, j: nat, k: nat, p: nat, order: seq<nat>)
    requires Idle(s, j, p) && k !in s.jobs && NoDup(order) && SetOf(order) <= OnList(s, Inactive)
    requires |order| <= if |OnList(s, Inactive)| < 32 then |OnList(s, Inactive)| else 32
    ensures var taken := Run(s, [Reclaim(j, false)] + [SweepOn(j)] + TakeAll(j, k, order));
      && taken.Next?
      && (Step(taken.world, SweepOn(j)) == Blocked <==> |order| < 32 && |order| < |OnList(s, Inactive)|)
    ensures |order| == 32 || |order| == |OnList(s, Inactive)| ==>
      var r := Run(s, [Reclaim(j, false)] + [SweepOn(j)] + TakeAll(j, k, order) + ([SweepOn(j)] + [SweepOn(j)]));
      && r.Next? && SearchIs(r.world, j, Search(p - 1, AtVictim))
      && OnList(r.world, Inactive) == OnList(s, Inactive) - SetOf(order)
      && OnList(r.world, Eviction) == OnList(s, Eviction) + SetOf(order)
  {
    hide Run, Step, OnList, TakeAll, Looks, ShiftRight;
    var n := |OnList(s, Inactive)|;
    Opens(s, j, p);
    ShiftLess(n, p);
    var t := Run(s, [Reclaim(j, false)] + [SweepOn(j)]).world;
    var w := Opened(n, p);
    AllTaken(t, j, k, order, p - 1, w);
    RunJoin(s, [Reclaim(j, false)] + [SweepOn(j)], TakeAll(j, k, order));
    var u := Run(t, TakeAll(j, k, order)).world;
    var w' := w.(part := OnInactive(w.part.nr, |order|, |order|));
    if |order| < w.part.nr {
      Fewer(OnList(s, Inactive), order);
      MustTake(u, j, p - 1, w');
    } else {
      CloseStep(u, j, p - 1, w');
      Closes(u, j, p - 1, w');
      RunJoin(s, [Reclaim(j, false)] + [SweepOn(j)] + TakeAll(j, k, order), [SweepOn(j)] + [SweepOn(j)]);
    }
  }

  lemma Fewer(xs: set<nat>, l: seq<nat>)
    requires NoDup(l) && |l| < |xs|
    ensures xs - SetOf(l) != {}
  {
    Laws.NoDupCard(l);
    var rest := xs - SetOf(l);
    SubsetCard(xs, SetOf(l) + rest);
    assert rest == {} ==> SetOf(l) + rest == SetOf(l);
  }
}
