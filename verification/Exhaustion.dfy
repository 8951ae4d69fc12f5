/** When a search, left alone, runs out of rounds, and a run that does. */
module Exhaustion {
  import opened Machine
  import opened SwapIn
  import opened Protocol
  import opened Ownership
  import opened Steps
  import opened Interleaving
  import opened Pairing
  import opened Progress
  import opened Schedules

  /** No frame is free, no page awaits eviction, and the lists are long enough that a
      round counts down, but too short on the inactive side for it to scan. */
  ghost predicate Hopeless(s: World) {
    && !SomeFree(s) && !Victims(s)
    && |OnList(s, Active)| + |OnList(s, Inactive)| > |s.frames| / 2 && |OnList(s, Inactive)| < 2
  }

  function Round(j: nat): seq<Action> {
    [MissFree(j)] + [Reclaim(j, false)] + [SweepOn(j)] + [MissVictim(j)]
  }

  function RoundsOf(j: nat, n: nat): seq<Action> {
    if n == 0 then [] else Round(j) + RoundsOf(j, n - 1)
  }

  lemma RunThenStep(s: World, xs: seq<Action>, a: Action)
    ensures Run(s, xs + [a]) == if Run(s, xs).Next? then Step(Run(s, xs).world, a) else Run(s, xs)
  {
    hide Step;
    assert (xs + [a])[..|xs + [a]| - 1] == xs;
  }

  lemma RoundRuns(s: World, j: nat)
    ensures Run(s, Round(j)) ==
      var a := Step(s, MissFree(j)); if !a.Next? then a else
      var b := Step(a.world, Reclaim(j, false)); if !b.Next? then b else
      var c := Step(b.world, SweepOn(j)); if !c.Next? then c else Step(c.world, MissVictim(j))
  {
    hide Step, Run;
    OneStep(s, MissFree(j));
    RunThenStep(s, [MissFree(j)], Reclaim(j, false));
    RunThenStep(s, [MissFree(j)] + [Reclaim(j, false)], SweepOn(j));
    RunThenStep(s, [MissFree(j)] + [Reclaim(j, false)] + [SweepOn(j)], MissVictim(j));
  }

  ghost predicate SearchIs(s: World, j: nat, search: Search) {
    Looks(s, j) && j in s.jobs && Searches(s.jobs[j]) && s.jobs[j].search == search
  }

  lemma SetTwice(s: World, j: nat, x: Search)
    requires j in s.jobs && Searches(s.jobs[j])
    ensures forall y :: SetSearch(SetSearch(s, j, x), j, y) == SetSearch(s, j, y)
  {}

  /** What a round tests is not changed by it. */
  lemma SetKeeps(s: World, j: nat, was: Search, search: Search)
    requires SearchIs(s, j, was)
    ensures SearchIs(SetSearch(s, j, search), j, search)
    ensures OnList(SetSearch(s, j, search), Inactive) == OnList(s, Inactive)
    ensures Plenty(SetSearch(s, j, search)) == Plenty(s)
    ensures SomeFree(SetSearch(s, j, search)) == SomeFree(s) && Victims(SetSearch(s, j, search)) == Victims(s)
    ensures forall x :: SetSearch(SetSearch(s, j, search), j, x) == SetSearch(s, j, x)
  {
    SetLooks(s, j, search);
    SetTwice(s, j, search);
    hide Looks;
    assert forall q :: OnList(SetSearch(s, j, search), q) == OnList(s, q);
  }

  lemma MissStep(s: World, j: nat, p: nat)
    requires SearchIs(s, j, Search(p, AtFree))
    ensures Step(s, MissFree(j)) == if SomeFree(s) then Blocked else Go(SetSearch(s, j, Search(p, AtReclaim)))
  {
    hide Looks, SetSearch;
  }

  lemma ReclaimStep(s: World, j: nat, p: nat)
    requires SearchIs(s, j, Search(p, AtReclaim)) && p > 0
    ensures Step(s, Reclaim(j, false)) ==
      Go(SetSearch(s, j, if Plenty(s) then Search(p - 1, AtScan(StartSweep(s, p), None)) else Search(p, AtVictim)))
  {
    hide Looks, SetSearch, Plenty, StartSweep;
  }

  lemma SweepStep(s: World, j: nat, p: nat, w: Sweep)
    requires SearchIs(s, j, Search(p, AtScan(w, None))) && w.part == Between && w.doneInactive == w.reclaimed == 0
    ensures w.toInactive == 0 ==> Step(s, SweepOn(j)) == Go(SetSearch(s, j, Search(p, AtVictim)))
    ensures w.toInactive > 0 ==>
              Step(s, SweepOn(j)).Next? && Step(Step(s, SweepOn(j)).world, MissVictim(j)) == Blocked
  {
    hide Looks;
  }

  lemma VictimStep(s: World, j: nat, p: nat)
    requires SearchIs(s, j, Search(p, AtVictim))
    ensures Step(s, MissVictim(j)) == if Victims(s) then Blocked
                                      else if p == 0 then Crash(OutOfMemory) else Go(SetSearch(s, j, Search(p, AtFree)))
    ensures Step(s, SweepOn(j)) == Blocked
  {
    hide Looks, SetSearch;
  }

  /** A round goes on, or fails if it is the last, exactly if nothing is found and the
      reclaim does not scan. */
  lemma RoundFails(s: World, j: nat, p: nat)
    requires SearchIs(s, j, Search(p, AtFree)) && p > 0
    ensures if !SomeFree(s) && !Victims(s) && Plenty(s) && ShiftRight(|OnList(s, Inactive)|, p) == 0
            then Run(s, Round(j)) == if p == 1 then Crash(OutOfMemory) else Go(SetSearch(s, j, Search(p - 1, AtFree)))
            else Run(s, Round(j)) == Blocked
  {
    hide Looks, Plenty, SetSearch, Step, Run, OnList, ShiftRight, SomeFree, Victims;
    RoundRuns(s, j);
    MissStep(s, j, p);
    SetKeeps(s, j, Search(p, AtFree), Search(p, AtReclaim));
    var t := SetSearch(s, j, Search(p, AtReclaim));
    ReclaimStep(t, j, p);
    if Plenty(s) {
      var w := StartSweep(t, p);
      SetKeeps(t, j, Search(p, AtReclaim), Search(p - 1, AtScan(w, None)));
      var u := SetSearch(t, j, Search(p - 1, AtScan(w, None)));
      SweepStep(u, j, p - 1, w);
      SetKeeps(u, j, Search(p - 1, AtScan(w, None)), Search(p - 1, AtVictim));
      VictimStep(SetSearch(u, j, Search(p - 1, AtVictim)), j, p - 1);
    } else {
      SetKeeps(t, j, Search(p, AtReclaim), Search(p, AtVictim));
      VictimStep(SetSearch(t, j, Search(p, AtVictim)), j, p);
    }
  }

  /** A search that is left alone fails after as many rounds as it has left, exactly in
      such a world. */
  lemma {:induction false} SearchFails(s: World, j: nat, p: nat)
    requires SearchIs(s, j, Search(p, AtFree)) && p > 0
    ensures Run(s, RoundsOf(j, p)) == Crash(OutOfMemory) <==> Hopeless(s)
    decreases p
  {
    hide Run, Looks, SetSearch, OnList;
    RoundFails(s, j, p);
    RunJoin(s, Round(j), RoundsOf(j, p - 1));
    FewShift(|OnList(s, Inactive)|, p);
    if p == 1 {
      assert RoundsOf(j, 0) == [] && Round(j) + [] == Round(j);
    } else if Run(s, Round(j)).Next? {
      SetKeeps(s, j, Search(p, AtFree), Search(p - 1, AtFree));
      SearchFails(SetSearch(s, j, Search(p - 1, AtFree)), j, p - 1);
    }
  }

  lemma FewShift(n: nat, p: nat)
    requires p > 0
    ensures n < 2 ==> ShiftRight(n, p) == 0
    ensures p == 1 ==> (n < 2 <==> ShiftRight(n, p) == 0)
  {}

  lemma RunThree(s: World, a: Action, b: Action, c: Action)
    requires Step(s, a).Next? && Step(Step(s, a).world, b).Next?
    ensures Run(s, [a, b, c]) == Step(Step(Step(s, a).world, b).world, c)
  {
    hide Step, Run;
    OneStep(s, a);
    RunThenStep(s, [a], b);
    RunThenStep(s, [a] + [b], c);
    assert [a] + [b] + [c] == [a, b, c];
  }

  /** A machine of one frame: one page is touched, then another. */
  function TakeIn(): seq<Action> {
    [FaultNew(1, 4096), TakeFrame(1, 0), CheckNew(1)]
  }

  function Settle(): seq<Action> {
    [FillZero(1, Bits(false, false)), Unmark(1), Track(1)]
  }

  function OnePageThenAnother(): seq<Action> {
    TakeIn() + Settle() + [FaultNew(2, 8192)]
  }

  ghost function WithOne(disk: map<nat, Bytes>, jobs: map<nat, Job>, p: Page, ram: map<nat, Bytes>): World {
    World(map[4096 := p], jobs, ram, {}, {}, {}, disk, map[0 := OfPage(4096)], map d | d in disk :: Free)
  }

  ghost function Untouched(disk: map<nat, Bytes>, job: Job, o: Owner): World {
    World(map[], map[1 := job], map[], {}, {}, {}, disk, map[0 := o], map d | d in disk :: Free)
  }

  lemma FaultStep(disk: map<nat, Bytes>)
    ensures Step(Start({0}, disk), FaultNew(1, 4096))
         == Go(Untouched(disk, WantFrame(4096, Search(PRIORITY, AtFree)), Free))
  {}

  lemma FrameStep(disk: map<nat, Bytes>)
    ensures Step(Untouched(disk, WantFrame(4096, Search(PRIORITY, AtFree)), Free), TakeFrame(1, 0))
         == Go(Untouched(disk, HasFrame(4096, 0), OfJob(1)))
  {
    hide ZeroPage;
  }

  lemma AddStep(disk: map<nat, Bytes>)
    ensures Step(Untouched(disk, HasFrame(4096, 0), OfJob(1)), CheckNew(1))
         == Go(WithOne(disk, map[1 := Adding(4096)], Page(true, false, InFrame(0), None, None, Some(1)), map[]))
  {
    hide ZeroPage;
  }

  lemma TakenIn(disk: map<nat, Bytes>)
    ensures Run(Start({0}, disk), TakeIn())
         == Go(WithOne(disk, map[1 := Adding(4096)], Page(true, false, InFrame(0), None, None, Some(1)), map[]))
  {
    hide Step, Start, Untouched, WithOne;
    FaultStep(disk);
    FrameStep(disk);
    AddStep(disk);
    RunThree(Start({0}, disk), FaultNew(1, 4096), TakeFrame(1, 0), CheckNew(1));
  }

  lemma FillStep(disk: map<nat, Bytes>, p: Page)
    ensures Step(WithOne(disk, map[1 := Adding(4096)], p, map[]), FillZero(1, Bits(false, false)))
         == Go(WithOne(disk, map[1 := Filled(4096)], p, map[4096 := ZeroPage()]))
  {
    hide ZeroPage;
    var none: set<nat> := {};
    assert none - {4096} == none;
  }

  lemma UnmarkStep(disk: map<nat, Bytes>, ram: map<nat, Bytes>)
    ensures var p := Page(true, false, InFrame(0), None, None, Some(1));
      Step(WithOne(disk, map[1 := Filled(4096)], p, ram), Unmark(1))
      == Go(WithOne(disk, map[1 := Cleared(4096)], p.(migrating := false), ram))
  {}

  lemma TrackStep(disk: map<nat, Bytes>)
    ensures var p := Page(false, false, InFrame(0), None, None, Some(1));
      Step(WithOne(disk, map[1 := Cleared(4096)], p, map[4096 := ZeroPage()]), Track(1))
      == Go(WithOne(disk, map[], p.(list := Some(Inactive), holder := None), map[4096 := ZeroPage()]))
  {
    hide ZeroPage;
    assert map[1 := Cleared(4096)] - {1} == map[];
  }

  lemma Settled(disk: map<nat, Bytes>)
    ensures var s := WithOne(disk, map[1 := Adding(4096)], Page(true, false, InFrame(0), None, None, Some(1)), map[]);
      Run(s, Settle())
      == Go(WithOne(disk, map[], Page(false, false, InFrame(0), None, Some(Inactive), None), map[4096 := ZeroPage()]))
  {
    hide Step, WithOne, ZeroPage;
    FillStep(disk, Page(true, false, InFrame(0), None, None, Some(1)));
    UnmarkStep(disk, map[4096 := ZeroPage()]);
    TrackStep(disk);
    RunThree(WithOne(disk, map[1 := Adding(4096)], Page(true, false, InFrame(0), None, None, Some(1)), map[]),
             FillZero(1, Bits(false, false)), Unmark(1), Track(1));
  }

  lemma Refaulted(disk: map<nat, Bytes>)
    ensures var s := WithOne(disk, map[], Page(false, false, InFrame(0), None, Some(Inactive), None),
                             map[4096 := ZeroPage()]);
      var r := Run(s, [FaultNew(2, 8192)]);
      r.Next? && SearchIs(r.world, 2, Search(PRIORITY, AtFree)) && Hopeless(r.world)
  {
    hide ZeroPage, Run;
    var s := WithOne(disk, map[], Page(false, false, InFrame(0), None, Some(Inactive), None), map[4096 := ZeroPage()]);
    OneStep(s, FaultNew(2, 8192));
    var t := Step(s, FaultNew(2, 8192)).world;
    assert OnList(t, Inactive) == {4096} && OnList(t, Active) == {};
  }

  lemma SmallRun(disk: map<nat, Bytes>)
    ensures var r := Run(Start({0}, disk), OnePageThenAnother());
      r.Next? && SearchIs(r.world, 2, Search(PRIORITY, AtFree)) && Hopeless(r.world)
  {
    hide Run, SearchIs, Hopeless, WithOne, Start, TakeIn, Settle;
    TakenIn(disk);
    Settled(disk);
    Refaulted(disk);
    SomeSteps();
    RunJoin(Start({0}, disk), TakeIn(), Settle());
    RunJoin(Start({0}, disk), TakeIn() + Settle(), [FaultNew(2, 8192)]);
  }

  lemma SomeSteps()
    ensures Settle() != []
  {}

  /** The bound on memory in `RunsNeverCrash` is needed: two pages and two slots, but
      one frame, and a run fails after twelve rounds. */
  lemma OutOfMemoryHappens(disk: map<nat, Bytes>)
    requires |disk| >= 2
    ensures var steps := OnePageThenAnother() + RoundsOf(2, 12);
      && FaultsWithin(steps, {4096, 8192})
      && Run(Start({0}, disk), steps) == Crash(OutOfMemory)
  {
    hide Run, SearchIs, Hopeless;
    SmallRun(disk);
    var s := Run(Start({0}, disk), OnePageThenAnother()).world;
    SearchFails(s, 2, 12);
    NoFaults(2, 12);
    RunJoin(Start({0}, disk), OnePageThenAnother(), RoundsOf(2, 12));
  }

  lemma {:induction false} NoFaults(j: nat, n: nat)
    ensures forall i :: 0 <= i < |RoundsOf(j, n)| ==> !RoundsOf(j, n)[i].FaultNew?
    ensures n > 0 ==> RoundsOf(j, n) != []
  {
    if n > 0 {
      NoFaults(j, n - 1);
    }
  }
}
