/** Searches that wait for frames which batches keep: when this is so, that it lasts,
    and a run that leads to it. */
module Standstill {
  import opened Machine
  import opened SwapIn
  import opened Protocol
  import opened Ownership
  import opened Steps
  import opened Interleaving
  import opened Pairing
  import opened Progress
  import opened Schedules
  import opened Rounds
  import Prefetching

  // ----- who is cornered -----

  /** Batches that are short of frames then keep half of DRAM. */
  lemma CorneredHolds(s: World, truth: map<nat, Bytes>)
    requires Sound(s, truth) && Cornered(s)
    ensures |Holding(s)| >= |s.frames| - |s.frames| / 2
  {
    hide Sound, AllWait, OnList, Holding, Looks, Busy;
    IdleFrames(s, truth);
  }

  /** Each batch is of at most 32 pages, and there are more than 62 frames for each. */
  ghost predicate Roomy(s: World, batches: set<nat>) {
    && (forall k {:trigger s.jobs[k]} :: k in s.jobs && Brings(s.jobs[k]) ==> s.jobs[k].batch in batches)
    && (forall b :: b in batches ==> |BatchOf(s, b)| <= Prefetching.CORE_PREFETCH_RATE)
    && |s.frames| > 62 * |batches|
  }

  /** So with enough frames nobody is. */
  lemma RoomyGoesOn(s: World, vas: set<nat>, batches: set<nat>)
    requires WithSlots(s, vas) && Roomy(s, batches)
    ensures !Cornered(s)
  {
    hide WithSlots, Cornered, Sound, Holding, BatchOf;
    var truth := SomeTruth(s, vas);
    BatchesHold(s, batches, Prefetching.CORE_PREFETCH_RATE);
    HoldingReads(s);
    assert HoldingIn(s, batches) == Holding(s);
    if Cornered(s) { CorneredHolds(s, truth); }
  }

  lemma BatchShrinks(s: World, a: Action, b: nat)
    requires Step(s, a).Next? && !a.Claim?
    ensures |BatchOf(Step(s, a).world, b)| <= |BatchOf(s, b)|
  {
    hide Step;
    var t := Step(s, a).world;
    forall k | k in BatchOf(t, b) ensures k in BatchOf(s, b) {
      StepFromBefore(s, a, k);
    }
    SubsetCard(BatchOf(t, b), BatchOf(s, b));
  }

  lemma StepRoomy(s: World, a: Action, batches: set<nat>)
    requires Roomy(s, batches) && Step(s, a).Next? && !a.Claim?
    ensures Roomy(Step(s, a).world, batches)
  {
    hide Step, BatchOf;
    var t := Step(s, a).world;
    forall k | k in t.jobs && Brings(t.jobs[k]) ensures t.jobs[k].batch in batches {
      StepFromBefore(s, a, k);
    }
    forall b | b in batches ensures |BatchOf(t, b)| <= Prefetching.CORE_PREFETCH_RATE {
      BatchShrinks(s, a, b);
    }
    StepSameKeys(s, a);
    SubsetCard(s.frames.Keys, t.frames.Keys);
    assert |s.frames| == |s.frames.Keys| && |t.frames| == |t.frames.Keys|;
  }

  lemma {:induction false} RunRoomy(s: World, steps: seq<Action>, batches: set<nat>)
    requires Roomy(s, batches) && Run(s, steps).Next? && GoOn(steps)
    ensures Roomy(Run(s, steps).world, batches)
    decreases |steps|
  {
    hide Step, Roomy;
    if steps != [] {
      RunRoomy(s, steps[..|steps| - 1], batches);
      StepRoomy(Run(s, steps[..|steps| - 1]).world, steps[|steps| - 1], batches);
    }
  }

  /** With more than 62 frames for each thread that reads a batch, all transitions can
      end, unless a search fails. */
  lemma RoomyRests(s: World, ch: Luck, vas: set<nat>, batches: set<nat>) returns (steps: seq<Action>, t: World)
    requires WithSlots(s, vas) && Roomy(s, batches)
    ensures || (Fails(s, ch, steps) && !(Easy(s) && Mild(ch)))
            || (Reaches(s, ch, steps, t) && AllAtRest(t) && (Easy(s) && Mild(ch) ==> Easy(t)))
  {
    hide Run, WithSlots, Roomy, Cornered, AllAtRest, Easy, Obeys, Mild;
    steps, t := ComesToRest(s, ch, vas);
    if Reaches(s, ch, steps, t) {
      Leads(s, ch, steps, t, vas);
      RunRoomy(s, steps, batches);
      RoomyGoesOn(t, vas, batches);
    }
  }

  // ----- it lasts -----

  /** New work for the threads: a first touch, a page to read, a scan by kswapd. */
  predicate NewWork(a: Action) {
    a.FaultNew? || a.Claim? || a.ScanTake?
  }

  lemma CorneredJobs(s: World)
    requires Cornered(s)
    ensures forall k {:trigger s.jobs[k]} :: k in s.jobs ==>
              s.jobs[k].WantFrame? || (s.jobs[k].Reading? && s.jobs[k].buffer.Some? && !BatchReady(s, s.jobs[k].batch))
  {
    hide Looks, Plenty, BatchReady;
    forall k | k in s.jobs
      ensures s.jobs[k].WantFrame? || (s.jobs[k].Reading? && s.jobs[k].buffer.Some? && !BatchReady(s, s.jobs[k].batch))
    {
      assert Waits(s, k);
    }
  }

  lemma LooksBack(s: World, k: nat, x: Search, i: nat)
    requires k in s.jobs && Searches(s.jobs[k]) && Looks(SetSearch(s, k, x), i)
    ensures Looks(s, i)
  {
    var t := SetSearch(s, k, x);
    if Starves(s.jobs[i]) {
      forall h | h in s.jobs && InBatch(s.jobs[h], s.jobs[i].batch)
        ensures s.jobs[h].Reading? && (Starves(s.jobs[h]) ==> i <= h)
      {
        assert h in t.jobs && InBatch(t.jobs[h], t.jobs[i].batch);
      }
    }
  }

  /** A search that goes round leaves the others as they are. */
  lemma SearchCorners(s: World, k: nat, x: Search)
    requires Cornered(s) && Looks(s, k) && k in s.jobs && Searches(s.jobs[k])
    requires x.priority > 0 && !x.stage.AtScan?
    ensures Cornered(SetSearch(s, k, x))
  {
    var t := SetSearch(s, k, x);
    KeptWaits(s, t, k);
    hide AllWait, Looks;
    assert forall q :: OnList(t, q) == OnList(s, q);
    forall i | Looks(t, i) ensures i !in Busy(t) {
      LooksBack(s, k, x, i);
    }
  }

  lemma NotBusy(s: World)
    requires Cornered(s)
    ensures forall k {:trigger Looks(s, k)} :: Looks(s, k) ==>
      k in s.jobs && Searches(s.jobs[k]) && s.jobs[k].search.priority > 0 && !s.jobs[k].search.stage.AtScan?
  {
    hide AllWait, LooseEnds;
  }

  lemma CorneredSearch(s: World, a: Action)
    requires Cornered(s) && SearchStep(s, a) != Blocked
    ensures Misses(a) && SearchStep(s, a).Next?
    ensures Cornered(SearchStep(s, a).world)
  {
    NotBusy(s);
    hide AllWait, Plenty, Looks, SetSearch, Busy;
    if SearchStep(s, a).Next? && !a.TakeFrame? {
      SearchIsSet(s, a);
      SearchCorners(s, a.j, SearchAfter(s, a));
    }
  }

  lemma CorneredBring(s: World, a: Action)
    requires Cornered(s) && !NewWork(a)
    ensures BringStep(s, a) == Blocked
  {
    CorneredJobs(s);
    hide Cornered, BatchReady;
  }

  lemma CorneredWrite(s: World, a: Action)
    requires Cornered(s)
    ensures WriteStep(s, a) == Blocked
  {
    CorneredJobs(s);
    hide AllWait, Plenty, Looks, BatchReady;
  }

  lemma CorneredScan(s: World, a: Action)
    requires Cornered(s) && !NewWork(a)
    ensures ScanStep(s, a) == Blocked
  {
    CorneredJobs(s);
    NotBusy(s);
    hide Cornered, Looks, BatchReady, TurnOf;
  }

  lemma CorneredRest(s: World, a: Action)
    requires Cornered(s)
    ensures RetireStep(s, a) == Blocked && ReturnStep(s, a) == Blocked
  {
    CorneredJobs(s);
    hide Cornered, BatchReady;
  }

  lemma CorneredTouch(s: World, a: Action)
    requires Cornered(s) && !NewWork(a) && TouchStep(s, a) != Blocked
    ensures (a.Load? || a.Store?) && TouchStep(s, a).Next? && Cornered(TouchStep(s, a).world)
  {
    CorneredJobs(s);
    hide BatchReady;
    if a.Load? || a.Store? { SameCorners(s, TouchStep(s, a).world); }
    hide Cornered;
  }

  lemma SameCorners(s: World, t: World)
    requires Cornered(s) && t.jobs == s.jobs && t.pages == s.pages && t.frames == s.frames
    ensures Cornered(t)
  {
    forall k | k in t.jobs ensures Waits(t, k) { assert Waits(s, k); }
    assert forall q :: OnList(t, q) == OnList(s, q);
    forall i | Looks(t, i) ensures i !in Busy(t) { assert Looks(s, i); }
  }

  /** Then, until there is new work, the program can go on with the pages that are mapped,
      and the searches look and find nothing; no other step is possible, and none fails. */
  lemma CorneredStep(s: World, a: Action)
    requires Cornered(s) && !NewWork(a) && Step(s, a) != Blocked
    ensures Step(s, a).Next? && (a.Load? || a.Store? || Misses(a)) && Cornered(Step(s, a).world)
  {
    hide Cornered, TouchStep, SearchStep, BringStep, WriteStep, RetireStep, ReturnStep, ScanStep;
    match KindOf(a)
    case Touching => CorneredTouch(s, a);
    case Searching => CorneredSearch(s, a);
    case Bringing => CorneredBring(s, a);
    case Writing => CorneredWrite(s, a);
    case Retiring => CorneredRest(s, a);
    case Returning => CorneredRest(s, a);
    case Scans => CorneredScan(s, a);
  }

  /** So no search ends, for ever. */
  lemma {:induction false} CorneredForever(s: World, steps: seq<Action>)
    requires Cornered(s) && Run(s, steps) != Blocked && forall i :: 0 <= i < |steps| ==> !NewWork(steps[i])
    ensures Run(s, steps).Next? && Cornered(Run(s, steps).world)
    ensures Run(s, steps).world.jobs.Keys == s.jobs.Keys && Run(s, steps).world.pages == s.pages
    decreases |steps|
  {
    hide Step, Cornered;
    if steps != [] {
      var was := steps[..|steps| - 1];
      CorneredForever(s, was);
      CorneredStep(Run(s, was).world, steps[|steps| - 1]);
      NothingEnds(Run(s, was).world, steps[|steps| - 1]);
    }
  }

  lemma NothingEnds(s: World, a: Action)
    requires Step(s, a).Next? && (a.Load? || a.Store? || Misses(a))
    ensures Step(s, a).world.jobs.Keys == s.jobs.Keys && Step(s, a).world.pages == s.pages
  {
    hide SearchAfter, Plenty;
    if Misses(a) {
      SearchIsSet(s, a);
      hide SearchStep;
    }
  }

  // ----- a batch larger than memory -----

  lemma TouchFrames(s: World, truth: map<nat, Bytes>, a: Action)
    requires Sound(s, truth) && TouchStep(s, a).Next?
    ensures TouchStep(s, a).world.frames.Keys == s.frames.Keys
  {
    if a.CheckNew? { assert JobOk(s, a.j); }
    hide Sound, JobOk;
  }

  lemma SearchFrames(s: World, a: Action)
    requires SearchStep(s, a).Next?
    ensures SearchStep(s, a).world.frames.Keys == s.frames.Keys
  {
    hide Plenty, Looks, SearchAfter;
    if a.TakeFrame? {
      LooksSupplied(s, a.j, a.f);
    } else {
      SearchIsSet(s, a);
      hide SearchStep;
    }
  }

  lemma BringFrames(s: World, truth: map<nat, Bytes>, a: Action)
    requires Sound(s, truth) && BringStep(s, a).Next?
    ensures BringStep(s, a).world.frames.Keys == s.frames.Keys
  {
    if a.Publish? { assert JobOk(s, a.j); }
    hide Sound, JobOk;
  }

  lemma RetireFrames(s: World, truth: map<nat, Bytes>, a: Action)
    requires Sound(s, truth) && RetireStep(s, a).Next?
    ensures RetireStep(s, a).world.frames.Keys == s.frames.Keys
  {
    if a.Move? { assert PageOk(s, truth, s.jobs[a.j].va); }
    hide Sound, PageOk;
  }

  lemma ReturnFrames(s: World, truth: map<nat, Bytes>, a: Action)
    requires Sound(s, truth) && ReturnStep(s, a).Next?
    ensures ReturnStep(s, a).world.frames.Keys == s.frames.Keys
  {
    assert JobOk(s, a.j);
    hide Sound, JobOk;
  }

  lemma WriteFrames(s: World, a: Action)
    requires WriteStep(s, a).Next?
    ensures WriteStep(s, a).world.frames.Keys == s.frames.Keys
  {}

  lemma ScanFrames(s: World, a: Action)
    requires ScanStep(s, a).Next?
    ensures ScanStep(s, a).world.frames.Keys == s.frames.Keys
  {
    hide TurnOf;
  }

  lemma StepFrames(s: World, truth: map<nat, Bytes>, a: Action)
    requires Sound(s, truth) && Step(s, a).Next?
    ensures Step(s, a).world.frames.Keys == s.frames.Keys
  {
    hide Sound, TouchStep, SearchStep, BringStep, WriteStep, RetireStep, ReturnStep, ScanStep;
    match KindOf(a)
    case Touching => TouchFrames(s, truth, a);
    case Searching => SearchFrames(s, a);
    case Bringing => BringFrames(s, truth, a);
    case Writing => WriteFrames(s, a);
    case Retiring => RetireFrames(s, truth, a);
    case Returning => ReturnFrames(s, truth, a);
    case Scans => ScanFrames(s, a);
  }

  ghost predicate Oversized(s: World, b: nat) {
    |BatchOf(s, b)| > |s.frames|
  }

  lemma NeverReady(s: World, truth: map<nat, Bytes>, b: nat)
    requires Sound(s, truth) && Oversized(s, b)
    ensures !BatchReady(s, b)
  {
    assert |s.frames| == |s.frames.Keys|;
    if BatchReady(s, b) {
      var f := map j | j in BatchOf(s, b) :: s.jobs[j].frame.value;
      forall j | j in BatchOf(s, b) ensures f[j] in s.frames && s.frames[f[j]] == OfJob(j) {
        assert JobOk(s, j);
      }
      InjectionCard(BatchOf(s, b), s.frames.Keys, f);
    }
  }

  lemma StaysInBatch(s: World, a: Action, j: nat, b: nat)
    requires Step(s, a).Next? && j in s.jobs && InBatch(s.jobs[j], b) && !BatchReady(s, b)
    ensures j in Step(s, a).world.jobs && InBatch(Step(s, a).world.jobs[j], b)
  {
    StepsEnd(s, a, j);
    if Gains(s, a, j) { GainsInBatch(s, a, j, b); }
    hide Step;
  }

  lemma GainsInBatch(s: World, a: Action, j: nat, b: nat)
    requires Step(s, a).Next? && j in s.jobs && InBatch(s.jobs[j], b) && !BatchReady(s, b) && Gains(s, a, j)
    ensures j in Step(s, a).world.jobs && InBatch(Step(s, a).world.jobs[j], b)
  {
    OthersBlocked(s, a, j);
    hide DoHandOver, DoTakeFrame, BatchReady, Plenty, Looks, WriteStep, RetireStep, ScanStep;
    if a.HandOver? {
      HandsToBatch(s, a.j, j, b);
    } else if a.TakeFrame? {
      TakesForBatch(s, j, a.f, b);
    }
  }

  lemma HandsToBatch(s: World, i: nat, j: nat, b: nat)
    requires DoHandOver(s, i).Next? && j in s.jobs && InBatch(s.jobs[j], b)
    ensures j in DoHandOver(s, i).world.jobs && InBatch(DoHandOver(s, i).world.jobs[j], b)
  {}

  lemma TakesForBatch(s: World, j: nat, f: nat, b: nat)
    requires DoTakeFrame(s, j, f).Next? && j in s.jobs && InBatch(s.jobs[j], b)
    ensures j in DoTakeFrame(s, j, f).world.jobs && InBatch(DoTakeFrame(s, j, f).world.jobs[j], b)
  {
    LooksSupplied(s, j, f);
    hide Looks;
  }

  /** A batch with more pages than there are frames is never mapped, in whatever way the
      threads go on. */
  lemma {:induction false} NeverMapped(s: World, truth: map<nat, Bytes>, steps: seq<Action>, b: nat)
    returns (after: map<nat, Bytes>)
    requires Sound(s, truth) && Oversized(s, b) && Run(s, steps).Next?
    ensures var t := Run(s, steps).world;
      && Sound(t, after) && t.frames.Keys == s.frames.Keys
      && BatchOf(s, b) <= BatchOf(t, b)
      && forall j {:trigger t.jobs[j]} :: j in BatchOf(s, b) ==> t.jobs[j].va !in t.ram
    decreases |steps|
  {
    hide Step, Sound, Stored;
    after := truth;
    if steps != [] {
      var (was, a) := (steps[..|steps| - 1], steps[|steps| - 1]);
      after := NeverMapped(s, truth, was, b);
      var u := Run(s, was).world;
      StillOversized(s, u, b);
      NeverReady(u, after, b);
      forall j | j in BatchOf(s, b) ensures j in BatchOf(Step(u, a).world, b) {
        assert j in BatchOf(u, b);
        StaysInBatch(u, a, j, b);
      }
      StepFrames(u, after, a);
      StepKeeps(u, after, a);
      after := Stored(u, after, a);
    }
    BatchOnDisk(Run(s, steps).world, after, b);
  }

  lemma StillOversized(s: World, t: World, b: nat)
    requires Oversized(s, b) && BatchOf(s, b) <= BatchOf(t, b) && t.frames.Keys == s.frames.Keys
    ensures Oversized(t, b)
  {
    hide BatchOf;
    SubsetCard(BatchOf(s, b), BatchOf(t, b));
    assert |s.frames| == |s.frames.Keys| && |t.frames| == |t.frames.Keys|;
  }

  lemma BatchOnDisk(s: World, truth: map<nat, Bytes>, b: nat)
    requires Sound(s, truth)
    ensures forall j {:trigger s.jobs[j]} :: j in BatchOf(s, b) ==> s.jobs[j].va !in s.ram
  {
    forall j | j in BatchOf(s, b) ensures s.jobs[j].va !in s.ram {
      assert JobOk(s, j) && PageOk(s, truth, s.jobs[j].va);
    }
  }

  // ----- a run that corners its jobs -----

  /** The page is tracked, or a first touch of it is under way. */
  ghost predicate Wanted(s: World, va: nat) {
    va in s.pages
    || exists j {:trigger s.jobs[j]} :: j in s.jobs && (s.jobs[j].WantFrame? || s.jobs[j].HasFrame?) && s.jobs[j].va == va
  }

  lemma OwnTouch(s: World, a: Action, j: nat)
    requires Step(s, a).Next? && j in s.jobs && (s.jobs[j].WantFrame? || s.jobs[j].HasFrame?) && Gains(s, a, j)
    ensures var t := Step(s, a).world;
      || (a.CheckNew? && a.j == j)
      || (j in t.jobs && (t.jobs[j].WantFrame? || t.jobs[j].HasFrame?) && t.jobs[j].va == s.jobs[j].va)
  {
    OthersBlocked(s, a, j);
    hide DoHandOver, DoTakeFrame, BatchReady, Plenty, Looks, WriteStep, RetireStep, ScanStep;
    if a.HandOver? {
      HandsToTouch(s, a.j, j);
    } else if a.TakeFrame? {
      TakesForTouch(s, j, a.f);
    }
  }

  lemma HandsToTouch(s: World, i: nat, j: nat)
    requires DoHandOver(s, i).Next? && j in s.jobs && (s.jobs[j].WantFrame? || s.jobs[j].HasFrame?)
    ensures var t := DoHandOver(s, i).world;
      j in t.jobs && (t.jobs[j] == s.jobs[j] || t.jobs[j].HasFrame?) && t.jobs[j].va == s.jobs[j].va
  {}

  lemma TakesForTouch(s: World, j: nat, f: nat)
    requires DoTakeFrame(s, j, f).Next? && j in s.jobs && (s.jobs[j].WantFrame? || s.jobs[j].HasFrame?)
    ensures var t := DoTakeFrame(s, j, f).world; j in t.jobs && t.jobs[j].HasFrame? && t.jobs[j].va == s.jobs[j].va
  {
    LooksSupplied(s, j, f);
    hide Looks;
  }

  lemma StepWanted(s: World, a: Action, va: nat)
    requires Wanted(s, va) && Step(s, a).Next?
    ensures Wanted(Step(s, a).world, va)
  {
    hide Step;
    var t := Step(s, a).world;
    StepSameKeys(s, a);
    if va !in s.pages {
      var j :| j in s.jobs && (s.jobs[j].WantFrame? || s.jobs[j].HasFrame?) && s.jobs[j].va == va;
      StepsEnd(s, a, j);
      if Gains(s, a, j) { OwnTouch(s, a, j); }
      hide Gains;
    }
  }

  lemma {:induction false} RunWanted(s: World, steps: seq<Action>, va: nat)
    requires Wanted(s, va) && Run(s, steps).Next?
    ensures Wanted(Run(s, steps).world, va)
    decreases |steps|
  {
    hide Step, Wanted;
    if steps != [] {
      RunWanted(s, steps[..|steps| - 1], va);
      StepWanted(Run(s, steps[..|steps| - 1]).world, steps[|steps| - 1], va);
    }
  }

  /** Touches of the pages `vas`, pages that are claimed, and what the threads make of it. */
  ghost predicate By(s: World, ch: Luck, steps: seq<Action>, t: World, vas: set<nat>) {
    && Bare(Run(s, steps)) == Go(t) && Obeys(s, ch, steps)
    && forall i :: 0 <= i < |steps| ==>
         GoesOn(steps[i]) || steps[i].Claim? || (steps[i].FaultNew? && steps[i].va in vas)
  }

  lemma ByThen(s: World, ch: Luck, xs: seq<Action>, t: World, ys: seq<Action>, u: World, vas: set<nat>)
    requires By(s, ch, xs, t, vas) && By(t, After(ch, xs), ys, u, vas)
    ensures By(s, ch, xs + ys, u, vas)
  {
    hide Run, Obeys, After;
    RunJoin(s, xs, ys);
    ObeyJoin(s, ch, xs, ys);
  }

  lemma ByOne(s: World, ch: Luck, a: Action, vas: set<nat>) returns (t: World)
    requires Step(s, a).Next? && (a.Claim? || (a.FaultNew? && a.va in vas))
    ensures By(s, ch, [a], t, vas) && t == Step(s, a).world
  {
    hide Step, Run, Obeys;
    OneStep(s, a);
    OneObeys(s, ch, a);
    t := Step(s, a).world;
  }

  lemma FaultFresh(s: World, va: nat)
    requires Easy(s) && s.jobs == map[] && va !in s.pages
    ensures var r := Step(s, FaultNew(0, va));
      r.Next? && Easy(r.world) && Roomy(r.world, {}) && Wanted(r.world, va) && r.world.pages == s.pages
  {
    var t := Step(s, FaultNew(0, va)).world;
    assert OnList(t, Active) == OnList(s, Active);
    assert 0 in t.jobs && t.jobs[0].WantFrame? && t.jobs[0].va == va;
  }

  /** On a machine at rest a page can be touched, and the machine come to rest again. */
  lemma TouchOne(s: World, ch: Luck, vas: set<nat>, va: nat) returns (steps: seq<Action>, t: World)
    requires WithSlots(s, vas) && AllAtRest(s) && Easy(s) && Mild(ch) && va in vas - s.pages.Keys
    ensures By(s, ch, steps, t, vas) && WithSlots(t, vas) && AllAtRest(t) && Easy(t)
    ensures s.pages.Keys + {va} <= t.pages.Keys
  {
    hide Step, Run, WithSlots, Easy, Wanted, Obeys, Mild, After;
    FaultFresh(s, va);
    var one := [FaultNew(0, va)];
    var u := ByOne(s, ch, FaultNew(0, va), vas);
    StepWithSlots(s, FaultNew(0, va), vas);
    MildAfter(ch, one);
    var rest;
    rest, t := RoomyRests(u, After(ch, one), vas, {});
    Leads(u, After(ch, one), rest, t, vas);
    steps := one + rest;
    ByThen(s, ch, one, u, rest, t, vas);
    forall wa | wa in s.pages.Keys + {va} ensures wa in t.pages {
      IsWanted(u, wa);
      RunWanted(u, rest, wa);
      RestGivesPage(t, wa);
    }
  }

  lemma IsWanted(s: World, va: nat)
    ensures va in s.pages ==> Wanted(s, va)
  {}

  lemma RestGivesPage(s: World, va: nat)
    requires Wanted(s, va) && s.jobs == map[]
    ensures va in s.pages
  {}

  /** And one after the other any number of pages that the disk has room for. */
  lemma {:induction false} TouchAll(s: World, ch: Luck, vas: set<nat>) returns (steps: seq<Action>, t: World)
    requires WithSlots(s, vas) && AllAtRest(s) && Easy(s) && Mild(ch)
    ensures By(s, ch, steps, t, vas) && WithSlots(t, vas) && AllAtRest(t) && Easy(t) && t.pages.Keys == vas
    decreases vas - s.pages.Keys
  {
    PagesWithin(s, vas);
    hide Run, Easy, AllAtRest, WithSlots, By, Mild, After;
    if va: nat :| va in vas && va !in s.pages {
      var one, u := TouchOne(s, ch, vas, va);
      MildAfter(ch, one);
      var rest;
      rest, t := TouchAll(u, After(ch, one), vas);
      ByThen(s, ch, one, u, rest, t, vas);
      steps := one + rest;
    } else {
      steps, t := [], s;
      ByNone(s, ch, vas);
    }
  }

  lemma PagesWithin(s: World, vas: set<nat>)
    requires WithSlots(s, vas)
    ensures s.pages.Keys <= vas
  {
    hide Sound, Matched;
  }

  lemma ByNone(s: World, ch: Luck, vas: set<nat>)
    ensures By(s, ch, [], s, vas)
  {}

  function SwappedOut(s: World): set<nat> {
    set va | va in s.pages && s.pages[va].swappedOut
  }

  /** At rest all pages but those that fit in memory are on the disk. */
  lemma RestOnDisk(s: World, truth: map<nat, Bytes>)
    requires Sound(s, truth) && AllAtRest(s)
    ensures |SwappedOut(s)| + |s.frames| >= |s.pages|
  {
    var inMemory := s.pages.Keys - SwappedOut(s);
    forall va | va in inMemory ensures s.pages[va].spot.InFrame? && s.pages[va].spot.f in s.frames
                                       && s.frames[s.pages[va].spot.f] == OfPage(va) {
      assert PageOk(s, truth, va);
    }
    InjectionCard(inMemory, s.frames.Keys, map va | va in inMemory :: s.pages[va].spot.f);
    SplitCard(s.pages.Keys, SwappedOut(s));
    assert |s.frames| == |s.frames.Keys| && |s.pages| == |s.pages.Keys|;
  }

  /** One thread has claimed pages, and nothing else goes on. */
  ghost predicate OnlyClaims(s: World, b: nat) {
    forall k {:trigger s.jobs[k]} :: k in s.jobs ==> s.jobs[k].Claimed? && s.jobs[k].batch == b
  }

  lemma ClaimStep(s: World, k: nat, va: nat, b: nat)
    requires OnlyClaims(s, b) && k !in s.jobs && va in s.pages && s.pages[va].swappedOut && !s.pages[va].migrating
    ensures var r := DoClaim(s, k, va, b);
      && r.Next? && r.world.jobs == s.jobs[k := Claimed(va, b)] && r.world.frames == s.frames
      && va in r.world.pages && r.world.pages == s.pages[va := r.world.pages[va]]
  {}

  lemma ClaimOne(s: World, ch: Luck, vas: set<nat>, va: nat, b: nat) returns (a: Action, t: World)
    requires Easy(s) && OnlyClaims(s, b) && va in s.pages && s.pages[va].swappedOut && !s.pages[va].migrating
    ensures a.Claim? && Step(s, a).Next? && By(s, ch, [a], t, vas) && t == Step(s, a).world
    ensures Easy(t) && OnlyClaims(t, b) && |t.jobs| == |s.jobs| + 1 && t.frames == s.frames
    ensures va in t.pages && t.pages == s.pages[va := t.pages[va]]
  {
    hide Run, By, Cool, DoClaim;
    var k := Bound(s.jobs.Keys);
    ClaimStep(s, k, va, b);
    a := Claim(k, va, b);
    t := ByOne(s, ch, a, vas);
    StepCools(s, a);
    assert t.jobs.Keys == s.jobs.Keys + {k} && |t.jobs| == |t.jobs.Keys| && |s.jobs| == |s.jobs.Keys|;
  }

  lemma {:induction false} ClaimAll(s: World, ch: Luck, vas: set<nat>, more: set<nat>, b: nat) returns (steps: seq<Action>, t: World)
    requires WithSlots(s, vas) && Easy(s) && OnlyClaims(s, b)
    requires forall va :: va in more ==> va in s.pages && s.pages[va].swappedOut && !s.pages[va].migrating
    ensures By(s, ch, steps, t, vas) && WithSlots(t, vas) && Easy(t) && OnlyClaims(t, b)
    ensures |t.jobs| == |s.jobs| + |more| && t.frames == s.frames
    decreases more
  {
    hide Run, Step, WithSlots, Easy, OnlyClaims, By, After;
    if more == {} {
      steps, t := [], s;
      ByNone(s, ch, vas);
    } else {
      var va :| va in more;
      var a, u := ClaimOne(s, ch, vas, va, b);
      StepWithSlots(s, a, vas);
      var rest;
      rest, t := ClaimAll(u, After(ch, [a]), vas, more - {va}, b);
      ByThen(s, ch, [a], u, rest, t, vas);
      steps := [a] + rest;
    }
  }

  lemma StartFits(frames: set<nat>, disk: map<nat, Bytes>, vas: set<nat>)
    requires |frames| >= 2 && |vas| <= |disk|
    ensures var s := Start(frames, disk); WithSlots(s, vas) && AllAtRest(s) && Easy(s) && |s.frames| == |frames|
  {
    hide Sound, Matched, Within, InTurn;
    StartSound(frames, disk);
    StartMatched(frames, disk);
    StartInTurn(frames, disk);
    StartWithin(frames, disk, vas);
    var s := Start(frames, disk);
    assert |s.frames| == |s.frames.Keys| && |s.slots| == |s.slots.Keys| && |disk| == |disk.Keys|;
    assert OnList(s, Active) == {};
  }

  lemma {:induction false} RunFrames(frames: set<nat>, disk: map<nat, Bytes>, steps: seq<Action>)
    requires Run(Start(frames, disk), steps).Next?
    ensures Run(Start(frames, disk), steps).world.frames.Keys == frames
  {
    hide Step, Sound;
    if steps != [] {
      var was := steps[..|steps| - 1];
      RunFrames(frames, disk, was);
      RunSound(frames, disk, was);
      StepFrames(Run(Start(frames, disk), was).world, Truth(Run(Start(frames, disk), was).world, was), steps[|steps| - 1]);
    }
  }

  /** A thread reads all pages that are on the disk, more than there are frames: the
      jobs end up cornered. */
  lemma BatchCorners(s: World, ch: Luck, vas: set<nat>) returns (steps: seq<Action>, t: World)
    requires WithSlots(s, vas) && AllAtRest(s) && Easy(s) && Mild(ch) && |s.pages| > 2 * |s.frames|
    ensures By(s, ch, steps, t, vas) && Cornered(t)
  {
    hide Run, WithSlots, Easy, Sound, Cornered, SwappedOut, By, Mild, After;
    var truth := SomeTruth(s, vas);
    RestOnDisk(s, truth);
    ToClaim(s);
    var claims, u := ClaimAll(s, ch, vas, SwappedOut(s), 0);
    MildAfter(ch, claims);
    var rest;
    rest, t := ComesToRest(u, After(ch, claims), vas);
    ReachesBy(u, After(ch, claims), rest, t, vas);
    ByThen(s, ch, claims, u, rest, t, vas);
    steps := claims + rest;
    assert |BatchOf(u, 0)| == |u.jobs| by { assert BatchOf(u, 0) == u.jobs.Keys && |u.jobs| == |u.jobs.Keys|; }
    var after := SomeTruth(u, vas);
    var last := NeverMapped(u, after, rest, 0);
    SubsetCard(BatchOf(u, 0), BatchOf(t, 0));
    BatchHasJobs(t, 0);
  }

  lemma BatchHasJobs(s: World, b: nat)
    ensures AllAtRest(s) ==> BatchOf(s, b) == {}
  {}

  lemma ToClaim(s: World)
    requires AllAtRest(s)
    ensures OnlyClaims(s, 0)
    ensures forall va :: va in SwappedOut(s) ==> va in s.pages && s.pages[va].swappedOut && !s.pages[va].migrating
  {}

  lemma ReachesBy(s: World, ch: Luck, steps: seq<Action>, t: World, vas: set<nat>)
    ensures Reaches(s, ch, steps, t) ==> By(s, ch, steps, t, vas) && Run(s, steps).Next? && Run(s, steps).world == t
  {
    hide Run, Obeys;
  }

  /** On every machine of two to fifteen frames this happens: more pages are touched
      than twice the frames, and one read-ahead, of at most 32 pages, then takes those
      that are on the disk.  It does so whatever pages the scans and evictions take; no
      accessed bit needs to be set, and kswapd and the workers need not do anything. */
  lemma CorneredHappens(frames: set<nat>, disk: map<nat, Bytes>, ch: Luck, vas: set<nat>)
    returns (steps: seq<Action>, t: World)
    requires |frames| >= 2 && |vas| > 2 * |frames| && |vas| <= |disk| && Mild(ch)
    requires |vas| <= Prefetching.CORE_PREFETCH_RATE
    ensures By(Start(frames, disk), ch, steps, t, vas) && Cornered(t)
  {
    hide Run, WithSlots, Easy, Cornered, AllAtRest, Obeys, Mild, After;
    var s := Start(frames, disk);
    StartFits(frames, disk, vas);
    var one, u := TouchAll(s, ch, vas);
    MildAfter(ch, one);
    RunFrames(frames, disk, one);
    assert |u.frames| == |u.frames.Keys| && |u.pages| == |u.pages.Keys|;
    var two;
    two, t := BatchCorners(u, After(ch, one), vas);
    ByThen(s, ch, one, u, two, t, vas);
    steps := one + two;
  }
}
