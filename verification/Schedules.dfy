/** Plans that choose which job steps next, and leave all else to chance. */
module Schedules {
  import opened Machine
  import opened SwapIn
  import opened Protocol
  import opened Ownership
  import opened Steps
  import opened Interleaving
  import opened Pairing
  import opened Progress

  // ----- runs of the jobs that are there -----

  /** A step that starts no transition but the evictions and scans of searches, and is
      not one of the program. */
  predicate GoesOn(a: Action) {
    !a.Load? && !a.Store? && !a.FaultNew? && !a.Claim? && !a.Pick? && !a.ScanTake?
  }

  /** What chance brings, after the steps so far. */
  type Luck = seq<Action> -> Chance

  function After(ch: Luck, xs: seq<Action>): Luck {
    ys => ch(xs + ys)
  }

  predicate GoOn(steps: seq<Action>) {
    forall i :: 0 <= i < |steps| ==> GoesOn(steps[i])
  }

  /** Each step is as chance will have it. */
  ghost predicate Obeys(s: World, ch: Luck, steps: seq<Action>)
    decreases |steps|
  {
    steps == [] ||
    var (was, a) := (steps[..|steps| - 1], steps[|steps| - 1]);
    Obeys(s, ch, was) && (Run(s, was).Next? ==> Abides(Run(s, was).world, a, ch(was)))
  }

  /** The world a run ends in, whatever its last step read. */
  function Bare(r: Outcome): Outcome {
    if r.Next? then Go(r.world) else r
  }

  ghost predicate Reaches(s: World, ch: Luck, steps: seq<Action>, t: World) {
    GoOn(steps) && Obeys(s, ch, steps) && Bare(Run(s, steps)) == Go(t)
  }

  ghost predicate Fails(s: World, ch: Luck, steps: seq<Action>) {
    GoOn(steps) && Obeys(s, ch, steps) && Run(s, steps) == Crash(OutOfMemory)
  }

  lemma {:induction false} RunJoin(s: World, xs: seq<Action>, ys: seq<Action>)
    ensures Bare(Run(s, xs + ys)) == if Run(s, xs).Next? then Bare(Run(Run(s, xs).world, ys)) else Run(s, xs)
    decreases |ys|
  {
    hide Step;
    if ys == [] {
      assert xs + ys == xs;
    } else {
      var zs := ys[..|ys| - 1];
      assert (xs + ys)[..|xs + ys| - 1] == xs + zs;
      RunJoin(s, xs, zs);
    }
  }

  lemma {:induction false} ObeyJoin(s: World, ch: Luck, xs: seq<Action>, ys: seq<Action>)
    requires Obeys(s, ch, xs) && Run(s, xs).Next? && Obeys(Run(s, xs).world, After(ch, xs), ys)
    ensures Obeys(s, ch, xs + ys)
    decreases |ys|
  {
    hide Run, Abides;
    if ys == [] {
      assert xs + ys == xs;
    } else {
      var zs := ys[..|ys| - 1];
      assert (xs + ys)[..|xs + ys| - 1] == xs + zs;
      ObeyJoin(s, ch, xs, zs);
      RunJoin(s, xs, zs);
    }
  }

  lemma Then(s: World, ch: Luck, xs: seq<Action>, t: World, ys: seq<Action>, u: World)
    requires Reaches(s, ch, xs, t) && Reaches(t, After(ch, xs), ys, u)
    ensures Reaches(s, ch, xs + ys, u)
  {
    hide Run, Obeys, After;
    RunJoin(s, xs, ys);
    ObeyJoin(s, ch, xs, ys);
  }

  lemma ThenFails(s: World, ch: Luck, xs: seq<Action>, t: World, ys: seq<Action>)
    requires Reaches(s, ch, xs, t) && Fails(t, After(ch, xs), ys)
    ensures Fails(s, ch, xs + ys)
  {
    hide Run, Obeys, After;
    RunJoin(s, xs, ys);
    ObeyJoin(s, ch, xs, ys);
  }

  lemma OneStep(s: World, a: Action)
    ensures Run(s, [a]) == Step(s, a)
  {
    hide Step;
    assert [a][..0] == [];
    assert Run(s, []) == Go(s);
  }

  lemma OneObeys(s: World, ch: Luck, a: Action)
    requires Abides(s, a, ch([]))
    ensures Obeys(s, ch, [a])
  {
    hide Abides;
    assert [a][..0] == [];
    assert Run(s, []) == Go(s);
  }

  lemma ByStep(s: World, ch: Luck, a: Action) returns (t: World)
    requires Step(s, a).Next? && GoesOn(a) && Abides(s, a, ch([]))
    ensures Reaches(s, ch, [a], t) && t == Step(s, a).world
  {
    hide Step, Run, Obeys, Abides;
    OneStep(s, a);
    OneObeys(s, ch, a);
    t := Step(s, a).world;
  }

  lemma NoSteps(s: World, ch: Luck)
    ensures Reaches(s, ch, [], s)
  {}

  lemma OnlyOne(s: World, ch: Luck, steps: seq<Action>, t: World)
    ensures !(Fails(s, ch, steps) && Reaches(s, ch, steps, t))
  {
    hide Run, Obeys;
  }

  // ----- a search in its reclaim has its turn -----

  predicate ScansAt(job: Job) {
    Searches(job) && job.search.stage.AtScan?
  }

  ghost predicate InTurn(s: World) {
    forall k {:trigger s.jobs[k]} :: k in s.jobs && ScansAt(s.jobs[k]) ==> Looks(s, k)
  }

  lemma SetLooks(s: World, k: nat, x: Search)
    requires Looks(s, k) && k in s.jobs && Searches(s.jobs[k])
    ensures Looks(SetSearch(s, k, x), k)
  {}

  lemma OthersBlocked(s: World, a: Action, j: nat)
    requires j in s.jobs && (Brings(s.jobs[j]) || s.jobs[j].WantFrame? || s.jobs[j].HasFrame?)
    ensures Gains(s, a, j) && KindOf(a) in {Writing, Retiring, Scans} ==> Step(s, a) == Blocked
  {}

  lemma OwnAtScan(s: World, a: Action, k: nat)
    requires Step(s, a).Next? && k in s.jobs && Starves(s.jobs[k]) && ScansAt(s.jobs[k])
    requires Gains(s, a, k) && !a.HandOver? && k in Step(s, a).world.jobs && Step(s, a).world.jobs[k].Reading?
    ensures Starves(Step(s, a).world.jobs[k])
  {
    OthersBlocked(s, a, k);
    hide BatchReady, Plenty, Looks, WriteStep, RetireStep, ScanStep;
  }

  /** A search in its reclaim is not handed a frame. */
  lemma NotHanded(s: World, i: nat, k: nat)
    requires Matched(s) && DoHandOver(s, i).Next? && k in s.jobs && Hungry(s.jobs[k]) && ScansAt(s.jobs[k])
    ensures WhoseOf(s.jobs[i]) != Some(k)
  {
    assert HelperOk(s, i) && SeekerOk(s, k);
  }

  lemma ScanStaysHungry(s: World, a: Action, k: nat)
    requires Matched(s) && Step(s, a).Next? && k in s.jobs && Starves(s.jobs[k]) && ScansAt(s.jobs[k])
    requires k in Step(s, a).world.jobs && Step(s, a).world.jobs[k].Reading?
    ensures Starves(Step(s, a).world.jobs[k])
  {
    StepsEnd(s, a, k);
    if a.HandOver? { NotHanded(s, a.j, k); }
    if Gains(s, a, k) && !a.HandOver? { OwnAtScan(s, a, k); }
    hide Matched, Step;
  }

  /** Its batch goes on being read as a whole. */
  lemma StillLooks(s: World, a: Action, k: nat)
    requires Matched(s) && Step(s, a).Next? && Looks(s, k) && k in s.jobs && ScansAt(s.jobs[k])
    requires k in Step(s, a).world.jobs && ScansAt(Step(s, a).world.jobs[k])
    ensures Looks(Step(s, a).world, k)
  {
    hide Matched, Step;
    var t := Step(s, a).world;
    StepFromBefore(s, a, k);
    if t.jobs[k].Reading? {
      ScanStaysHungry(s, a, k);
      var b := t.jobs[k].batch;
      forall i | i in t.jobs && InBatch(t.jobs[i], b) ensures t.jobs[i].Reading? && (Starves(t.jobs[i]) ==> k <= i) {
        StepFromBefore(s, a, i);
        if i in s.jobs { StepsEnd(s, a, i); } else { NotClaimed(s, a, k, b); }
      }
    }
  }

  lemma NotClaimed(s: World, a: Action, k: nat, b: nat)
    requires a.Claim? && a.batch == b && k in s.jobs && InBatch(s.jobs[k], b) && s.jobs[k].Reading?
    ensures !Step(s, a).Next?
  {}

  lemma ReclaimLooks(s: World, a: Action)
    requires a.Reclaim? && Step(s, a).Next?
    ensures Looks(Step(s, a).world, a.j)
  {
    hide SearchAfter, Plenty;
    SearchIsSet(s, a);
    SetLooks(s, a.j, SearchAfter(s, a));
  }

  lemma StepInTurn(s: World, a: Action)
    requires Matched(s) && InTurn(s) && Step(s, a).Next?
    ensures InTurn(Step(s, a).world)
  {
    hide Matched, Step, Looks;
    var t := Step(s, a).world;
    forall k | k in t.jobs && ScansAt(t.jobs[k]) ensures Looks(t, k) {
      StepFromBefore(s, a, k);
      if k in s.jobs && ScansAt(s.jobs[k]) { StillLooks(s, a, k); } else { ReclaimLooks(s, a); }
    }
  }

  // ----- worlds with slots -----

  /** A world such as a run leads to, with a slot for each page. */
  ghost predicate WithSlots(s: World, vas: set<nat>) {
    (exists truth :: Sound(s, truth)) && Matched(s) && InTurn(s) && Within(s, vas) && |vas| <= |s.slots|
  }

  lemma SomeTruth(s: World, vas: set<nat>) returns (truth: map<nat, Bytes>)
    requires WithSlots(s, vas)
    ensures Sound(s, truth)
  {
    hide Sound;
    truth :| Sound(s, truth);
  }

  lemma StepWithSlots(s: World, a: Action, vas: set<nat>)
    requires WithSlots(s, vas) && Step(s, a).Next? && (a.FaultNew? ==> a.va in vas)
    ensures WithSlots(Step(s, a).world, vas)
  {
    hide Step, Sound, Matched, Within, Stored, InTurn;
    var t := Step(s, a).world;
    var truth :| Sound(s, truth);
    StepKeeps(s, truth, a);
    StepLinks(s, truth, a);
    StepInTurn(s, a);
    StepWithin(s, a, vas);
    assert |s.slots| == |s.slots.Keys| && |t.slots| == |t.slots.Keys|;
  }

  lemma {:induction false} RunWithSlots(s: World, steps: seq<Action>, vas: set<nat>)
    requires WithSlots(s, vas) && Run(s, steps).Next? && GoOn(steps)
    ensures WithSlots(Run(s, steps).world, vas)
    decreases |steps|
  {
    hide Step, WithSlots;
    if steps != [] {
      RunWithSlots(s, steps[..|steps| - 1], vas);
      StepWithSlots(Run(s, steps[..|steps| - 1]).world, steps[|steps| - 1], vas);
    }
  }

  lemma Leads(s: World, ch: Luck, steps: seq<Action>, t: World, vas: set<nat>)
    requires WithSlots(s, vas) && Reaches(s, ch, steps, t)
    ensures WithSlots(t, vas)
  {
    hide Run, WithSlots, Obeys;
    RunWithSlots(s, steps, vas);
  }

  /** What a run from the start leads to. */
  lemma {:induction false} RunFits(frames: set<nat>, disk: map<nat, Bytes>, steps: seq<Action>)
    requires Run(Start(frames, disk), steps).Next?
    ensures var s := Run(Start(frames, disk), steps).world; Matched(s) && InTurn(s)
  {
    hide Step, Matched, Sound, InTurn;
    if steps == [] {
      StartMatched(frames, disk);
      StartInTurn(frames, disk);
    } else {
      var was := steps[..|steps| - 1];
      RunFits(frames, disk, was);
      RunSound(frames, disk, was);
      var s := Run(Start(frames, disk), was).world;
      StepLinks(s, Truth(s, was), steps[|steps| - 1]);
      StepInTurn(s, steps[|steps| - 1]);
    }
  }

  lemma StartInTurn(frames: set<nat>, disk: map<nat, Bytes>)
    ensures InTurn(Start(frames, disk))
  {}

  lemma RunsFit(frames: set<nat>, disk: map<nat, Bytes>, steps: seq<Action>, vas: set<nat>)
    requires FaultsWithin(steps, vas) && |vas| <= |disk| && Run(Start(frames, disk), steps).Next?
    ensures WithSlots(Run(Start(frames, disk), steps).world, vas)
  {
    hide Run, Matched, Sound, Within, InTurn;
    var s := Run(Start(frames, disk), steps).world;
    RunSound(frames, disk, steps);
    RunFits(frames, disk, steps);
    RunWithin(frames, disk, steps, vas);
    assert |s.slots| == |s.slots.Keys| && |disk| == |disk.Keys|;
  }

  lemma NextSteps(s: World, k: nat, c: Chance, vas: set<nat>)
    requires WithSlots(s, vas) && k in s.jobs && !Waits(s, k)
    ensures Step(s, NextOf(s, k, c)).Next?
  {
    hide Step, Sound, Matched, Waits, NextOf, InTurn;
    var truth :| Sound(s, truth);
    WithinCard(s, vas);
    JobCanStep(s, truth, k, c);
  }

  // ----- worlds in which no page is accessed -----

  /** No page has its accessed bit set, or is on the active list. */
  ghost predicate Cool(s: World) {
    s.accessed == {} && OnList(s, Active) == {} && |s.frames| >= 2
  }

  /** Chance sets no accessed bit, and promotes no page. */
  ghost predicate Mild(ch: Luck) {
    forall xs {:trigger ch(xs)} :: !ch(xs).bits.accessed && !ch(xs).promotes
  }

  lemma MildAfter(ch: Luck, xs: seq<Action>)
    ensures Mild(ch) ==> Mild(After(ch, xs))
  {}

  lemma MildIsCalm(s: World, a: Action, c: Chance)
    requires Step(s, a).Next? && GoesOn(a) && Abides(s, a, c) && !c.bits.accessed && !c.promotes
    ensures Calm(a)
  {
    if a.ScanPut? { assert DoScanPut(s, a.j, a.to).Next?; }
    hide Step;
  }

  lemma StepCools(s: World, a: Action)
    requires Cool(s) && Step(s, a).Next? && Calm(a)
    ensures Cool(Step(s, a).world)
  {
    hide Step;
    var t := Step(s, a).world;
    StepSameKeys(s, a);
    forall va | va in OnList(t, Active) ensures va in OnList(s, Active) {
      assert t.pages[va].list == Some(Active);
    }
    SubsetCard(s.frames.Keys, t.frames.Keys);
    assert |s.frames| == |s.frames.Keys| && |t.frames| == |t.frames.Keys|;
  }

  lemma {:induction false} RunCools(s: World, ch: Luck, steps: seq<Action>)
    requires Cool(s) && Mild(ch) && Run(s, steps).Next? && GoOn(steps) && Obeys(s, ch, steps)
    ensures Cool(Run(s, steps).world)
    decreases |steps|
  {
    hide Step, Cool, Abides, GoesOn;
    if steps != [] {
      var (was, a) := (steps[..|steps| - 1], steps[|steps| - 1]);
      RunCools(s, ch, was);
      MildIsCalm(Run(s, was).world, a, ch(was));
      StepCools(Run(s, was).world, a);
    }
  }

  lemma LeadsCool(s: World, ch: Luck, steps: seq<Action>, t: World)
    requires Cool(s) && Mild(ch) && Reaches(s, ch, steps, t)
    ensures Cool(t)
  {
    hide Run, Cool, Obeys, Mild;
    RunCools(s, ch, steps);
  }

  // ----- what is left to do -----

  ghost function Todo(s: World): set<(nat, nat)> {
    set j, r | j in s.jobs && 0 <= r < Rank(s.jobs[j]) :: (j, r)
  }

  lemma LessTodo(s: World, t: World, k: nat)
    requires t.jobs.Keys <= s.jobs.Keys && k in s.jobs
    requires forall j {:trigger t.jobs[j]} :: j in t.jobs ==> Rank(t.jobs[j]) <= Rank(s.jobs[j])
    requires k in t.jobs ==> Rank(t.jobs[k]) < Rank(s.jobs[k])
    ensures Todo(t) < Todo(s)
  {
    hide Rank;
    RankPositive(s.jobs[k]);
    var done := (k, Rank(s.jobs[k]) - 1);
    assert done in Todo(s) && done !in Todo(t);
  }

  lemma RankPositive(job: Job)
    ensures Rank(job) > 0
  {}

  lemma SameRank(x: Job, y: Job)
    requires SameButSearch(x, y)
    ensures Rank(x) == Rank(y)
  {}

  lemma NextLess(s: World, k: nat, c: Chance)
    requires k in s.jobs && !Waits(s, k) && Step(s, NextOf(s, k, c)).Next?
    ensures Todo(Step(s, NextOf(s, k, c)).world) < Todo(s)
  {
    hide Step, Waits, NextOf, Todo, SameButSearch, Rank;
    var a := NextOf(s, k, c);
    var t := Step(s, a).world;
    forall j | j in t.jobs ensures j in s.jobs && Rank(t.jobs[j]) <= Rank(s.jobs[j]) {
      StepFromBefore(s, a, j);
      StepsEnd(s, a, j);
      if SameButSearch(s.jobs[j], t.jobs[j]) { SameRank(s.jobs[j], t.jobs[j]); }
    }
    StepsEnd(s, a, k);
    LessTodo(s, t, k);
  }

  // ----- when all jobs wait -----

  ghost predicate AllWait(s: World) {
    forall k {:trigger Waits(s, k)} :: k in s.jobs ==> Waits(s, k)
  }

  predicate Victims(s: World) {
    exists va :: va in s.pages && s.pages[va].list == Some(Eviction)
  }

  predicate SomeFree(s: World) {
    exists f :: f in s.frames && s.frames[f].Free?
  }

  lemma {:induction false} Least(xs: set<nat>) returns (m: nat)
    requires xs != {}
    ensures m in xs && forall x :: x in xs ==> m <= x
  {
    var x :| x in xs;
    if xs == {x} {
      m := x;
    } else {
      var n := Least(xs - {x});
      m := if x < n then x else n;
      assert forall y :: y in xs ==> y == x || y in xs - {x};
    }
  }

  lemma {:induction false} Bound(xs: set<nat>) returns (n: nat)
    ensures forall x :: x in xs ==> x < n
  {
    if xs == {} {
      n := 0;
    } else {
      var x :| x in xs;
      var m := Bound(xs - {x});
      n := if x < m then m else x + 1;
      assert forall y :: y in xs ==> y == x || y in xs - {x};
    }
  }

  lemma WaitsFor(s: World)
    requires AllWait(s)
    ensures forall k {:trigger s.jobs[k]} :: k in s.jobs ==> s.jobs[k].WantFrame? || s.jobs[k].Reading?
  {
    forall k | k in s.jobs ensures s.jobs[k].WantFrame? || s.jobs[k].Reading? {
      assert Waits(s, k);
    }
  }

  /** The search that has its turn, of those in the batch of `j`. */
  lemma Looker(s: World, j: nat) returns (k: nat)
    requires AllWait(s) && j in s.jobs && Hungry(s.jobs[j])
    ensures Looks(s, k) && k in s.jobs && Hungry(s.jobs[k])
  {
    WaitsFor(s);
    if s.jobs[j].WantFrame? {
      k := j;
    } else {
      var starving := set i | i in s.jobs && InBatch(s.jobs[i], s.jobs[j].batch) && Starves(s.jobs[i]);
      assert j in starving;
      k := Least(starving);
      forall i | i in s.jobs && InBatch(s.jobs[i], s.jobs[k].batch) && Starves(s.jobs[i]) ensures k <= i {
        assert i in starving;
      }
    }
  }

  /** Nobody is at work for a search. */
  lemma NoHelper(s: World, k: nat)
    requires Matched(s) && AllWait(s) && k in s.jobs && Hungry(s.jobs[k])
    ensures HelperOf(s.jobs[k]) == None
  {
    WaitsFor(s);
    assert SeekerOk(s, k);
  }

  /** All jobs wait, and no frame is free. */
  ghost predicate Idle(s: World) {
    AllWait(s) && !SomeFree(s) && !Victims(s)
  }

  lemma IdlePage(s: World, truth: map<nat, Bytes>, f: nat)
    requires Sound(s, truth) && Idle(s) && f in s.frames && s.frames[f].OfPage?
    ensures s.frames[f].va in OnList(s, Active) + OnList(s, Inactive)
    ensures s.frames[f].va in s.pages && s.pages[s.frames[f].va].spot == InFrame(f)
  {
    hide BatchReady;
    assert FrameOk(s, f);
    assert PageOk(s, truth, s.frames[f].va);
    WaitsFor(s);
  }

  lemma IdleJob(s: World, truth: map<nat, Bytes>, f: nat)
    requires Sound(s, truth) && Idle(s) && f in s.frames && s.frames[f].OfJob?
    ensures s.frames[f].j in Holding(s) && FrameOf(s.jobs[s.frames[f].j]) == Some(f)
  {
    assert FrameOk(s, f);
    var j := s.frames[f].j;
    assert Waits(s, j);
    var k :| k in s.jobs && InBatch(s.jobs[k], s.jobs[j].batch) && !Ready(s.jobs[k]);
    assert Waits(s, k);
    assert Starves(s.jobs[k]);
  }

  /** Every frame then holds a page on the two lists, or waits in a batch. */
  lemma IdleFrames(s: World, truth: map<nat, Bytes>)
    requires Sound(s, truth) && Idle(s)
    ensures |s.frames| <= |OnList(s, Active)| + |OnList(s, Inactive)| + |Holding(s)|
  {
    hide Sound, Idle, OnList, Holding;
    var ofPages := set f | f in s.frames && s.frames[f].OfPage?;
    var listed := OnList(s, Active) + OnList(s, Inactive);
    var pages := map f | f in ofPages :: s.frames[f].va;
    forall f | f in ofPages ensures pages[f] in listed { IdlePage(s, truth, f); }
    forall f, g | f in ofPages && g in ofPages && pages[f] == pages[g] ensures f == g {
      IdlePage(s, truth, f);
      IdlePage(s, truth, g);
    }
    InjectionCard(ofPages, listed, pages);
    UnionCard(OnList(s, Active), OnList(s, Inactive));
    NoneFree(s);
    var ofJobs := s.frames.Keys - ofPages;
    var jobs := map f | f in ofJobs && s.frames[f].OfJob? :: s.frames[f].j;
    forall f | f in ofJobs ensures jobs[f] in Holding(s) { IdleJob(s, truth, f); }
    forall f, g | f in ofJobs && g in ofJobs && jobs[f] == jobs[g] ensures f == g {
      IdleJob(s, truth, f);
      IdleJob(s, truth, g);
    }
    InjectionCard(ofJobs, Holding(s), jobs);
    SplitCard(s.frames.Keys, ofPages);
    assert |s.frames| == |s.frames.Keys|;
  }

  lemma NoneFree(s: World)
    requires Idle(s)
    ensures forall f :: f in s.frames ==> s.frames[f].OfPage? || s.frames[f].OfJob?
  {}
}
