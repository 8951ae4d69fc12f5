/** A search goes round its three looks, and ends. */
module Rounds {
  import opened Machine
  import opened SwapIn
  import opened Protocol
  import opened Ownership
  import opened Steps
  import opened Interleaving
  import opened Pairing
  import opened Progress
  import opened Schedules

  // ----- what a search waits for -----

  predicate Fed(job: Job) {
    job.HasFrame? || (job.Reading? && job.frame.Some?)
  }

  lemma NextFeeds(s: World, k: nat, c: Chance, j: nat)
    requires k in s.jobs && !Waits(s, k) && Step(s, NextOf(s, k, c)).Next? && j in s.jobs && Hungry(s.jobs[j])
    ensures var t := Step(s, NextOf(s, k, c)).world; j in t.jobs && (Hungry(t.jobs[j]) || Fed(t.jobs[j]))
  {
    hide Step, NextOf;
    var a := NextOf(s, k, c);
    StepsEnd(s, a, j);
    if a.HandOver? {
      HandsOver(s, k, j);
    } else if j == k {
      CompletesOnly(s, k, c);
    }
  }

  lemma HandsOver(s: World, k: nat, j: nat)
    requires Step(s, HandOver(k)).Next? && j in s.jobs && Hungry(s.jobs[j])
    ensures var t := Step(s, HandOver(k)).world; j in t.jobs && (t.jobs[j] == s.jobs[j] || Fed(t.jobs[j]))
  {}

  lemma CompletesOnly(s: World, k: nat, c: Chance)
    requires k in s.jobs && !Waits(s, k) && Hungry(s.jobs[k])
    ensures NextOf(s, k, c) == Complete(k)
    ensures Step(s, Complete(k)).Next? ==>
              k in Step(s, Complete(k)).world.jobs && Hungry(Step(s, Complete(k)).world.jobs[k])
  {}

  // ----- one look of a search -----

  /** Only the search of job `k` has gone on. */
  ghost predicate Kept(s: World, t: World, k: nat) {
    k in s.jobs && k in t.jobs && Searches(s.jobs[k])
    && Searches(t.jobs[k]) && t.jobs == s.jobs[k := s.jobs[k].(search := t.jobs[k].search)]
  }

  /** Job `k` has its frame. */
  ghost predicate Served(s: World, t: World, k: nat) {
    k in s.jobs && k in t.jobs && t.jobs == s.jobs[k := t.jobs[k]]
    && Hungry(s.jobs[k]) && Fed(t.jobs[k]) && Rank(t.jobs[k]) < Rank(s.jobs[k])
  }

  lemma KeptWaits(s: World, t: World, k: nat)
    requires AllWait(s) && Looks(s, k) && Kept(s, t, k)
    ensures AllWait(t) && Looks(t, k) && Hungry(t.jobs[k])
  {
    assert forall b :: BatchReady(s, b) ==> BatchReady(t, b);
    forall b | BatchReady(t, b) ensures BatchReady(s, b) {
      forall i | i in s.jobs && InBatch(s.jobs[i], b) ensures Ready(s.jobs[i]) {
        assert i in t.jobs && InBatch(t.jobs[i], b);
      }
    }
    forall i | i in t.jobs ensures Waits(t, i) {
      assert Waits(s, i);
    }
  }

  lemma KeptKept(s: World, t: World, u: World, k: nat)
    requires Kept(s, t, k)
    ensures Kept(t, u, k) ==> Kept(s, u, k)
    ensures Served(t, u, k) ==> Served(s, u, k)
  {
    if Kept(t, u, k) {
      assert u.jobs == s.jobs[k := s.jobs[k].(search := u.jobs[k].search)];
    }
    if Served(t, u, k) {
      assert u.jobs == s.jobs[k := u.jobs[k]];
    }
  }

  // ----- what a search has left -----

  /** Compared field by field, the first one first. */
  datatype Left = Left(priority: nat, turn: nat, clusters: nat, part: nat, pages: nat)

  predicate Below(x: Left, y: Left) {
    || x.priority < y.priority
    || (x.priority == y.priority && (x.turn < y.turn
        || (x.turn == y.turn && (x.clusters < y.clusters
            || (x.clusters == y.clusters && (x.part < y.part || (x.part == y.part && x.pages < y.pages)))))))
  }

  /** How far a look is from one that ends the search, or from a round that counts down. */
  function TurnsLeft(p: nat, stage: Stage, victims: bool, free: bool): nat {
    if p == 0 || victims then (match stage case AtFree => 3 case AtReclaim => 2 case AtScan(_, _) => 1 case _ => 0)
    else if free then (match stage case AtReclaim => 3 case AtScan(_, _) => 2 case AtVictim => 1 case _ => 0)
    else match stage case AtScan(_, _) => 3 case AtVictim => 2 case AtFree => 1 case _ => 0
  }

  function ClustersLeft(w: Sweep): nat {
    if w.doneInactive < w.toInactive then w.toInactive - w.doneInactive else 0
  }

  function PartsLeft(w: Sweep): nat {
    match w.part case OnInactive(_, _, _) => 2 case OnActive(_, _) => 1 case Between => 0
  }

  function PagesLeft(w: Sweep): nat {
    match w.part
    case OnInactive(nr, _, tries) => if tries < nr * 100 then nr * 100 - tries else 0
    case OnActive(nr, ret) => if ret < nr then nr - ret else 0
    case Between => 0
  }

  function LeftOf(search: Search, victims: bool, free: bool): Left {
    var turn := TurnsLeft(search.priority, search.stage, victims, free);
    match search.stage
    case AtScan(w, _) => Left(search.priority, turn, ClustersLeft(w), PartsLeft(w), PagesLeft(w))
    case _ => Left(search.priority, turn, 0, 0, 0)
  }

  ghost function LeftAt(s: World, k: nat): Left
    requires k in s.jobs && Searches(s.jobs[k])
  {
    LeftOf(s.jobs[k].search, Victims(s), SomeFree(s))
  }

  /** The reclaim of a search comes to its end: each turn leaves less to do. */
  lemma SweepLess(p: nat, w: Sweep, inactive: nat, active: nat, victims: bool, free: bool)
    requires NextTurn(w, inactive, active).Goes?
    ensures Below(LeftOf(Search(p, AtScan(NextTurn(w, inactive, active).sweep, None)), victims, free),
                  LeftOf(Search(p, AtScan(w, None)), victims, free))
  {}

  lemma CountedLess(p: nat, w: Sweep, inactive: nat, active: nat, to: Queue, victims: bool, later: bool, free: bool)
    requires NextTurn(w, inactive, active).Takes? && (victims ==> later)
    ensures Below(LeftOf(Search(p, AtScan(Counted(w, to), None)), later, free),
                  LeftOf(Search(p, AtScan(w, None)), victims, free))
  {}

  // ----- the looks that only change the search -----

  lemma Looked(s: World, ch: Luck, a: Action) returns (t: World)
    requires KindOf(a) == Searching && !a.TakeFrame? && Step(s, a).Next? && Abides(s, a, ch([]))
    ensures Reaches(s, ch, [a], t) && Kept(s, t, a.j) && t.jobs[a.j].search == SearchAfter(s, a)
    ensures Victims(t) == Victims(s) && SomeFree(t) == SomeFree(s) && t.pages == s.pages
  {
    hide Reaches, SearchStep, SearchAfter, Abides;
    SearchIsSet(s, a);
    t := ByStep(s, ch, a);
  }

  /** One look later job `k` has its frame, or there is less left of its search. */
  ghost predicate Nearer(s: World, t: World, k: nat) {
    Served(s, t, k) || (Kept(s, t, k) && Below(LeftAt(t, k), LeftAt(s, k)))
  }

  /** The reclaim is about to bring a page to the eviction list, if it is not accessed. */
  ghost predicate Yields(s: World, w: Sweep) {
    OnList(s, Inactive) != {} &&
    match w.part
    case Between => w.doneInactive < w.toInactive && w.reclaimed == 0
    case OnInactive(nr, ret, tries) => nr > 0 && ret == 0 && tries == 0
    case OnActive(_, _) => false
  }

  /** The last round will find something. */
  ghost predicate Hope(s: World, k: nat)
    requires k in s.jobs && Searches(s.jobs[k])
  {
    var Search(p, stage) := s.jobs[k].search;
    p == 0 ==> Victims(s) || (stage.AtScan? && Yields(s, stage.sweep))
  }

  /** While no page is accessed or active, this stays so. */
  ghost predicate Hopes(s: World, t: World, k: nat) {
    Kept(s, t, k) && Cool(s) && Hope(s, k) ==> Hope(t, k)
  }

  /** Another search is in its reclaim. */
  ghost predicate OthersScan(s: World, k: nat) {
    exists i {:trigger s.jobs[i]} :: i in s.jobs && i != k && ScansAt(s.jobs[i])
  }

  /** The search may go round without counting down: it waits for frames that batches
      keep, or for another search to end its scan. */
  ghost predicate Stalled(s: World, k: nat)
    requires k in s.jobs && Searches(s.jobs[k])
  {
    && s.jobs[k].search.priority > 0 && !s.jobs[k].search.stage.AtScan?
    && (OthersScan(s, k) || (Idle(s) && !Plenty(s)))
  }

  lemma NobodyShrinks(s: World, k: nat)
    requires AllWait(s) && k in s.jobs && !ScansAt(s.jobs[k])
    ensures Shrinking(s) ==> OthersScan(s, k)
  {
    WaitsFor(s);
  }

  lemma FreeTurn(s: World, ch: Luck, k: nat) returns (steps: seq<Action>, t: World)
    requires LooksAt(s, k, AtFree)
    ensures Reaches(s, ch, steps, t) && Nearer(s, t, k) && Hopes(s, t, k)
  {
    hide Reaches, Looks, Cool;
    LooksSupplied(s, k, 0);
    if g: nat :| g in s.frames && s.frames[g].Free? {
      var f := if IsFree(s.frames, ch([]).frame) then ch([]).frame else g;
      LooksSupplied(s, k, f);
      steps := [TakeFrame(k, f)];
      t := ByStep(s, ch, TakeFrame(k, f));
      Feeds(s, t, k, f);
    } else {
      steps := [MissFree(k)];
      t := Looked(s, ch, MissFree(k));
    }
  }

  lemma Feeds(s: World, t: World, k: nat, f: nat)
    requires k in s.jobs && Hungry(s.jobs[k]) && Supplied(s.jobs[k], f).Some?
    requires t.jobs == s.jobs[k := Supplied(s.jobs[k], f).value]
    ensures Served(s, t, k) && !Kept(s, t, k)
  {}

  lemma ReclaimTurn(s: World, ch: Luck, k: nat) returns (steps: seq<Action>, t: World)
    requires AllWait(s) && LooksAt(s, k, AtReclaim) && !Stalled(s, k)
    ensures Reaches(s, ch, steps, t) && Nearer(s, t, k) && Hopes(s, t, k)
  {
    hide Reaches, Looks, AllWait, Plenty, StartSweep, Cool, Yields, Shrinking, OthersScan;
    LooksSupplied(s, k, 0);
    NobodyShrinks(s, k);
    var a := Reclaim(k, ch([]).skips && Shrinking(s));
    steps := [a];
    t := Looked(s, ch, a);
    if Plenty(s) && Cool(s) { StartYields(s, t); }
  }

  lemma StartYields(s: World, t: World)
    requires Plenty(s) && Cool(s) && t.pages == s.pages
    ensures Yields(t, StartSweep(s, 1))
  {
    assert ShiftRight(|OnList(s, Inactive)| / 2, 0) == |OnList(s, Inactive)| / 2;
    assert ShiftRight(|OnList(s, Inactive)|, 1) == |OnList(s, Inactive)| / 2;
    assert OnList(t, Inactive) == OnList(s, Inactive);
  }

  // ----- a page goes through the hands of a search -----

  /** The page `va` is in the hands of job `i`, for the search of job `k`. */
  ghost predicate InHand(s: World, i: nat, k: nat, va: nat, p: nat, w: Sweep) {
    && i in s.jobs && Scanned(s.jobs[i]) && s.jobs[i].va == va && s.jobs[i].whose == Some(k) && i != k
    && k in s.jobs && Searches(s.jobs[k]) && s.jobs[k].search == Search(p, AtScan(w, Some(i)))
    && va in s.pages && s.pages[va].list == None
  }

  lemma VictimsStay(s: World, t: World, va: nat)
    requires va in s.pages && va in t.pages && t.pages == s.pages[va := t.pages[va]] && s.pages[va].list != Some(Eviction)
    ensures Victims(s) ==> Victims(t)
  {
    if v: nat :| v in s.pages && s.pages[v].list == Some(Eviction) {
      assert v in t.pages && t.pages[v].list == Some(Eviction);
    }
  }

  /** The page that chance has next on the list. */
  ghost function PageNext(s: World, q: Queue, c: Chance): (va: nat)
    requires OnList(s, q) != {}
    ensures va in OnList(s, q)
  {
    if q == Inactive && c.inactive in OnList(s, q) then c.inactive
    else if q == Active && c.active in OnList(s, q) then c.active
    else if q == Eviction && c.victim in OnList(s, q) then c.victim
    else var va :| va in OnList(s, q); va
  }

  lemma TakeInHand(s: World, ch: Luck, k: nat, i: nat, va: nat, q: Queue) returns (t: World)
    requires Sweeps(s, k) && TurnOf(s, s.jobs[k].search.stage.sweep) == Takes(q)
    requires i !in s.jobs && OnList(s, q) != {} && va == PageNext(s, q, ch([]))
    ensures Reaches(s, ch, [SweepTake(k, i, va)], t)
    ensures k in s.jobs && Searches(s.jobs[k]) && s.jobs[k].search.stage.AtScan?
    ensures InHand(t, i, k, va, s.jobs[k].search.priority, s.jobs[k].search.stage.sweep)
    ensures q == Inactive ==> t.jobs[i].Scanning?
    ensures t.jobs - {i} == s.jobs[k := t.jobs[k]] && SameButSearch(s.jobs[k], t.jobs[k])
    ensures t.frames == s.frames && (Victims(s) ==> Victims(t)) && t.accessed == s.accessed
  {
    hide Reaches, Looks, TurnOf, Victims;
    LooksSupplied(s, k, 0);
    TakesLists(s, s.jobs[k].search.stage.sweep);
    PageAbides(s, k, i, q, ch([]));
    hide Abides, PageNext;
    t := ByStep(s, ch, SweepTake(k, i, va));
    VictimsStay(s, t, va);
  }

  lemma PageAbides(s: World, k: nat, i: nat, q: Queue, c: Chance)
    requires OnList(s, q) != {}
    ensures q != Eviction ==> Abides(s, SweepTake(k, i, PageNext(s, q, c)), c)
    ensures q == Eviction ==> Abides(s, PickFor(k, i, PageNext(s, q, c)), c)
    ensures PageNext(s, q, c) in s.pages && s.pages[PageNext(s, q, c)].list == Some(q)
  {}

  lemma TakesLists(s: World, w: Sweep)
    ensures TurnOf(s, w).Takes? ==> TurnOf(s, w).q in {Active, Inactive} && OnList(s, TurnOf(s, w).q) != {}
  {
    hide OnList;
  }

  lemma LookInHand(s: World, ch: Luck, i: nat, k: nat, va: nat, p: nat, w: Sweep) returns (t: World)
    requires InHand(s, i, k, va, p, w) && s.jobs[i].Scanning?
    ensures Reaches(s, ch, [Look(i)], t) && InHand(t, i, k, va, p, w) && t.jobs[i].Seen?
    ensures va !in s.accessed ==> t.jobs[i].how == Cold
    ensures t.jobs - {i} == s.jobs - {i} && t.frames == s.frames && t.pages == s.pages
  {
    hide Reaches;
    t := ByStep(s, ch, Look(i));
  }

  lemma PutStep(s: World, i: nat, k: nat, va: nat, p: nat, w: Sweep, to: Queue)
    requires InHand(s, i, k, va, p, w) && s.jobs[i].Seen? && Sends(s.jobs[i].how, to)
    ensures var r := DoScanPut(s, i, to);
      && r.Next? && r.world.frames == s.frames
      && r.world.jobs == (s.jobs - {i})[k := s.jobs[k].(search := Search(p, AtScan(Counted(w, to), None)))]
      && va in r.world.pages && r.world.pages[va].list == Some(to) && r.world.pages == s.pages[va := r.world.pages[va]]
  {
    hide Counted;
  }

  lemma PutBack(s: World, ch: Luck, i: nat, k: nat, va: nat, p: nat, w: Sweep) returns (a: Action, t: World)
    requires InHand(s, i, k, va, p, w) && s.jobs[i].Seen?
    ensures a.ScanPut? && Reaches(s, ch, [a], t)
    ensures t.jobs == (s.jobs - {i})[k := s.jobs[k].(search := Search(p, AtScan(Counted(w, a.to), None)))]
    ensures t.frames == s.frames && (Victims(s) || s.jobs[i].how == Cold ==> Victims(t))
  {
    hide Reaches, Counted, Victims, DoScanPut, DoScanTake, DoSweepTake, DoLook;
    var to := match s.jobs[i].how
      case WasActive => Inactive
      case Cold => Eviction
      case Hot => if ch([]).promotes then Active else Inactive;
    a := ScanPut(i, to);
    PutStep(s, i, k, va, p, w, to);
    assert Step(s, a) == DoScanPut(s, i, to);
    hide Step;
    t := ByStep(s, ch, a);
    VictimsStay(s, t, va);
    if s.jobs[i].how == Cold { IsVictim(t, va); }
  }

  lemma IsVictim(s: World, va: nat)
    requires va in s.pages && s.pages[va].list == Some(Eviction)
    ensures Victims(s)
  {}

  /** A page is taken, looked at and put back. */
  lemma HandleOne(s: World, ch: Luck, k: nat, q: Queue) returns (steps: seq<Action>, t: World, to: Queue)
    requires Sweeps(s, k) && TurnOf(s, s.jobs[k].search.stage.sweep) == Takes(q)
    ensures Reaches(s, ch, steps, t) && Kept(s, t, k) && t.frames == s.frames && (Victims(s) ==> Victims(t))
    ensures t.jobs[k].search ==
      Search(s.jobs[k].search.priority, AtScan(Counted(s.jobs[k].search.stage.sweep, to), None))
    ensures q == Inactive && s.accessed == {} ==> Victims(t)
  {
    hide Reaches, Looks, Counted, TurnOf, Victims, SomeFree, PageNext, After;
    LooksSupplied(s, k, 0);
    var Search(p, stage) := s.jobs[k].search;
    TakesLists(s, stage.sweep);
    var va := PageNext(s, q, ch([]));
    var i := Bound(s.jobs.Keys);
    var s1 := TakeInHand(s, ch, k, i, va, q);
    steps := [SweepTake(k, i, va)];
    if s1.jobs[i].Scanning? {
      var s2 := LookInHand(s1, After(ch, steps), i, k, va, p, stage.sweep);
      SameVictims(s1, s2);
      Then(s, ch, steps, s1, [Look(i)], s2);
      assert (s2.jobs - {i})[k] == (s1.jobs - {i})[k];
      steps, s1 := steps + [Look(i)], s2;
    }
    var a, s3 := PutBack(s1, After(ch, steps), i, k, va, p, stage.sweep);
    Then(s, ch, steps, s1, [a], s3);
    steps, t, to := steps + [a], s3, a.to;
  }

  lemma SameVictims(s: World, t: World)
    requires t.pages == s.pages
    ensures Victims(t) == Victims(s)
  {}

  lemma SweepRun(s: World, ch: Luck, k: nat, q: Queue) returns (steps: seq<Action>, t: World)
    requires Sweeps(s, k) && TurnOf(s, s.jobs[k].search.stage.sweep) == Takes(q)
    ensures Reaches(s, ch, steps, t) && Nearer(s, t, k) && Hopes(s, t, k)
  {
    hide Reaches, Looks, Counted, Below, LeftOf, TurnOf, Victims;
    LooksSupplied(s, k, 0);
    var w := s.jobs[k].search.stage.sweep;
    var to;
    steps, t, to := HandleOne(s, ch, k, q);
    TurnIs(s, w);
    CountedLess(s.jobs[k].search.priority, w, |OnList(s, Inactive)|, |OnList(s, Active)|, to, Victims(s), Victims(t), SomeFree(s));
  }

  lemma ScanTurn(s: World, ch: Luck, k: nat) returns (steps: seq<Action>, t: World)
    requires Sweeps(s, k)
    ensures Reaches(s, ch, steps, t) && Nearer(s, t, k) && Hopes(s, t, k)
  {
    hide Reaches, Looks, TurnOf, Yields, Cool, Victims;
    LooksSupplied(s, k, 0);
    var Search(p, stage) := s.jobs[k].search;
    YieldsOn(s, stage.sweep);
    match TurnOf(s, stage.sweep)
    case Takes(q) =>
      steps, t := SweepRun(s, ch, k, q);
    case Over =>
      steps := [SweepOn(k)];
      t := Looked(s, ch, SweepOn(k));
    case Goes(w) =>
      steps := [SweepOn(k)];
      t := Looked(s, ch, SweepOn(k));
      TurnIs(s, stage.sweep);
      SweepLess(p, stage.sweep, |OnList(s, Inactive)|, |OnList(s, Active)|, Victims(s), SomeFree(s));
      SameYields(s, t, w);
  }

  lemma YieldsOn(s: World, w: Sweep)
    ensures Yields(s, w) ==> !TurnOf(s, w).Over? && (TurnOf(s, w).Goes? ==> Yields(s, TurnOf(s, w).sweep))
  {}

  lemma SameYields(s: World, t: World, w: Sweep)
    requires t.pages == s.pages
    ensures Yields(s, w) ==> Yields(t, w)
  {
    assert OnList(t, Inactive) == OnList(s, Inactive);
  }

  lemma TurnIs(s: World, w: Sweep)
    ensures TurnOf(s, w) == NextTurn(w, |OnList(s, Inactive)|, |OnList(s, Active)|)
  {}

  // ----- a search evicts a page for itself -----

  /** Job `i` evicts a page for the search of job `k`. */
  ghost predicate Helps(s: World, i: nat, k: nat) {
    i in s.jobs && Evicts(s.jobs[i]) && s.jobs[i].whose == Some(k) && k in s.jobs && Hungry(s.jobs[k])
  }

  /** Only job `i` has gone on, with the same page. */
  ghost predicate HelpsOn(s: World, t: World, i: nat) {
    i in s.jobs && Evicts(s.jobs[i]) && i in t.jobs && t.jobs == s.jobs[i := t.jobs[i]] && Evicts(t.jobs[i])
    && t.jobs[i].whose == s.jobs[i].whose && Rank(t.jobs[i]) < Rank(s.jobs[i])
  }

  lemma SlotHelps(s: World, a: Action)
    requires WriteStep(s, a).Next? && (a.TakeSlot? || a.WriteOut? || a.Zap?)
    ensures HelpsOn(s, WriteStep(s, a).world, a.j)
  {
    hide DoPick, DoPickFor, DoMark, DoGuard, DoSample;
  }

  lemma MarkHelps(s: World, a: Action)
    requires WriteStep(s, a).Next? && (a.Mark? || a.Guard? || a.Sample?)
    ensures HelpsOn(s, WriteStep(s, a).world, a.j)
  {
    hide DoPick, DoPickFor, DoTakeSlot, DoWriteOut, DoZap;
  }

  lemma WriteHelps(s: World, i: nat, c: Chance)
    requires i in s.jobs && Evicts(s.jobs[i]) && !Waits(s, i)
    requires KindOf(NextOf(s, i, c)) == Writing && Step(s, NextOf(s, i, c)).Next?
    ensures HelpsOn(s, Step(s, NextOf(s, i, c)).world, i)
  {
    hide BatchReady, WriteStep;
    var a := NextOf(s, i, c);
    if a.TakeSlot? || a.WriteOut? || a.Zap? { SlotHelps(s, a); } else { MarkHelps(s, a); }
  }

  lemma RetireHelps(s: World, i: nat, c: Chance)
    requires i in s.jobs && Evicts(s.jobs[i]) && !Waits(s, i)
    requires KindOf(NextOf(s, i, c)) == Retiring && Step(s, NextOf(s, i, c)).Next?
    ensures HelpsOn(s, Step(s, NextOf(s, i, c)).world, i)
  {
    hide BatchReady;
  }

  lemma ReleaseHelps(s: World, truth: map<nat, Bytes>, i: nat, c: Chance)
    requires Sound(s, truth) && i in s.jobs && s.jobs[i].Listed? && s.jobs[i].whose.Some?
    ensures NextOf(s, i, c) == Release(i)
    ensures Step(s, Release(i)).Next? ==> HelpsOn(s, Step(s, Release(i)).world, i)
  {
    assert JobOk(s, i) && PageOk(s, truth, s.jobs[i].va);
  }

  lemma HelperKinds(s: World, i: nat, c: Chance)
    requires i in s.jobs && Evicts(s.jobs[i]) && s.jobs[i].whose.Some? && !Waits(s, i)
    ensures s.jobs[i].Spare? ==> NextOf(s, i, c) == HandOver(i)
    ensures !s.jobs[i].Spare? && !s.jobs[i].Listed? ==>
              KindOf(NextOf(s, i, c)) == Writing || KindOf(NextOf(s, i, c)) == Retiring
  {}

  /** The page is evicted step by step, and its frame is handed over. */
  lemma {:induction false} HelpEnds(s: World, ch: Luck, i: nat, k: nat, vas: set<nat>)
    returns (steps: seq<Action>, t: World)
    requires WithSlots(s, vas) && Helps(s, i, k)
    ensures Reaches(s, ch, steps, t) && Served(s.(jobs := s.jobs - {i}), t, k)
    decreases Rank(s.jobs[i])
  {
    hide Reaches, WithSlots, NextOf, Step, Rank, KindOf, Abides, After;
    assert !Waits(s, i);
    var c := ch([]);
    var a := NextOf(s, i, c);
    NextSteps(s, i, c, vas);
    HelperKinds(s, i, c);
    var u := ByStep(s, ch, a);
    Leads(s, ch, [a], u, vas);
    if s.jobs[i].Spare? {
      steps, t := [a], u;
      HandOverServes(s, i, k);
    } else {
      if s.jobs[i].Listed? {
        var truth := SomeTruth(s, vas);
        ReleaseHelps(s, truth, i, c);
      } else if KindOf(a) == Writing {
        WriteHelps(s, i, c);
      } else {
        RetireHelps(s, i, c);
      }
      var rest;
      rest, t := HelpEnds(u, After(ch, [a]), i, k, vas);
      Then(s, ch, [a], u, rest, t);
      steps := [a] + rest;
      assert u.jobs - {i} == s.jobs - {i};
    }
  }

  lemma HandOverServes(s: World, i: nat, k: nat)
    requires Helps(s, i, k) && s.jobs[i].Spare? && Step(s, HandOver(i)).Next?
    ensures Served(s.(jobs := s.jobs - {i}), Step(s, HandOver(i)).world, k)
  {
    hide Rank, Served;
    Feeds(s.(jobs := s.jobs - {i}), Step(s, HandOver(i)).world, k, s.jobs[i].f);
  }

  lemma PicksFor(s: World, ch: Luck, k: nat) returns (i: nat, va: nat, t: World)
    requires LooksAt(s, k, AtVictim) && OnList(s, Eviction) != {}
    ensures Reaches(s, ch, [PickFor(k, i, va)], t) && Helps(t, i, k)
    ensures k in s.jobs && t.jobs - {i} == s.jobs[k := t.jobs[k]] && SameButSearch(s.jobs[k], t.jobs[k])
  {
    hide Reaches, Looks;
    LooksSupplied(s, k, 0);
    i := Bound(s.jobs.Keys);
    va := PageNext(s, Eviction, ch([]));
    PageAbides(s, k, i, Eviction, ch([]));
    hide PageNext, Abides;
    t := ByStep(s, ch, PickFor(k, i, va));
  }

  lemma VictimsListed(s: World)
    requires Victims(s)
    ensures OnList(s, Eviction) != {}
  {
    var va :| va in s.pages && s.pages[va].list == Some(Eviction);
    assert va in OnList(s, Eviction);
  }

  lemma VictimTaken(s: World, ch: Luck, k: nat, vas: set<nat>) returns (steps: seq<Action>, t: World)
    requires WithSlots(s, vas) && LooksAt(s, k, AtVictim) && Victims(s)
    ensures Reaches(s, ch, steps, t) && Served(s, t, k)
  {
    hide Reaches, LooksAt, WithSlots, Rank, Helps, After, Victims, OnList;
    VictimsListed(s);
    var i, va, u := PicksFor(s, ch, k);
    Leads(s, ch, [PickFor(k, i, va)], u, vas);
    var rest;
    rest, t := HelpEnds(u, After(ch, [PickFor(k, i, va)]), i, k, vas);
    Then(s, ch, [PickFor(k, i, va)], u, rest, t);
    steps := [PickFor(k, i, va)] + rest;
    SameRank(s.jobs[k], u.jobs[k]);
    assert (u.jobs - {i})[k] == u.jobs[k];
  }

  /** The last look of a round ends the search, or the next round begins. */
  lemma VictimTurn(s: World, ch: Luck, k: nat, vas: set<nat>) returns (steps: seq<Action>, t: World)
    requires WithSlots(s, vas) && LooksAt(s, k, AtVictim)
    ensures (Fails(s, ch, steps) && !Hope(s, k)) || (Reaches(s, ch, steps, t) && Nearer(s, t, k) && Hopes(s, t, k))
  {
    hide Reaches, Looks, WithSlots, Cool, Yields, Victims;
    LooksSupplied(s, k, 0);
    if Victims(s) {
      steps, t := VictimTaken(s, ch, k, vas);
    } else if s.jobs[k].search.priority == 0 {
      steps, t := [MissVictim(k)], s;
      NoVictims(s);
      OneStep(s, MissVictim(k));
      OneObeys(s, ch, MissVictim(k));
    } else {
      NoVictims(s);
      steps := [MissVictim(k)];
      t := Looked(s, ch, MissVictim(k));
    }
  }

  lemma NoVictims(s: World)
    ensures !Victims(s) ==> forall va :: va in s.pages ==> s.pages[va].list != Some(Eviction)
  {}

  // ----- the search ends -----

  /** When all jobs wait, the next look of a search fails it, serves it, or leaves less. */
  lemma Turn(s: World, ch: Luck, k: nat, vas: set<nat>) returns (steps: seq<Action>, t: World)
    requires WithSlots(s, vas) && AllWait(s) && Looks(s, k) && k in s.jobs && Searches(s.jobs[k]) && !Stalled(s, k)
    ensures (Fails(s, ch, steps) && !Hope(s, k)) || (Reaches(s, ch, steps, t) && Nearer(s, t, k) && Hopes(s, t, k))
  {
    hide Reaches, Looks, AllWait, Nearer, Fails, Matched, Sound, Within, Hope, Hopes, Stalled, InTurn;
    LooksHungry(s, k);
    NoHelper(s, k);
    hide WithSlots;
    match s.jobs[k].search.stage
    case AtFree => steps, t := FreeTurn(s, ch, k);
    case AtReclaim => steps, t := ReclaimTurn(s, ch, k);
    case AtScan(_, _) => steps, t := ScanTurn(s, ch, k);
    case _ => steps, t := VictimTurn(s, ch, k, vas);
  }

  lemma LooksHungry(s: World, k: nat)
    requires Looks(s, k)
    ensures k in s.jobs && Hungry(s.jobs[k]) && Searches(s.jobs[k])
  {}

  /** When all jobs wait, a search that has its turn goes on until it has a frame, fails,
      or is stalled. */
  lemma {:induction false} LookOn(s: World, ch: Luck, k: nat, vas: set<nat>) returns (steps: seq<Action>, t: World)
    requires WithSlots(s, vas) && AllWait(s) && Looks(s, k) && k in s.jobs && Searches(s.jobs[k])
    ensures || (Fails(s, ch, steps) && !(Cool(s) && Mild(ch) && Hope(s, k)))
            || (Reaches(s, ch, steps, t) && (Served(s, t, k) || (Kept(s, t, k) && AllWait(t) && Stalled(t, k))))
    decreases LeftAt(s, k).priority, LeftAt(s, k).turn, LeftAt(s, k).clusters, LeftAt(s, k).part, LeftAt(s, k).pages
  {
    hide Reaches, Looks, WithSlots, AllWait, Fails, Kept, Served, LeftAt, Stalled, Cool, Hope, Mild, After;
    if Stalled(s, k) {
      steps, t := [], s;
      NoSteps(s, ch);
      KeptSelf(s, k);
    } else {
      var one, u := Turn(s, ch, k, vas);
      OnlyOne(s, ch, one, u);
      if Fails(s, ch, one) || Served(s, u, k) {
        steps, t := one, u;
      } else {
        Leads(s, ch, one, u, vas);
        KeptWaits(s, u, k);
        KeptSearches(s, u, k);
        MildAfter(ch, one);
        if Cool(s) && Mild(ch) { LeadsCool(s, ch, one, u); }
        var rest;
        rest, t := LookOn(u, After(ch, one), k, vas);
        steps := one + rest;
        KeptKept(s, u, t, k);
        OnlyOne(u, After(ch, one), rest, t);
        if Fails(u, After(ch, one), rest) { ThenFails(s, ch, one, u, rest); } else { Then(s, ch, one, u, rest, t); }
      }
    }
  }

  lemma KeptSearches(s: World, t: World, k: nat)
    requires Kept(s, t, k)
    ensures k in t.jobs && Searches(t.jobs[k])
  {}

  lemma KeptSelf(s: World, k: nat)
    requires k in s.jobs && Searches(s.jobs[k])
    ensures Kept(s, s, k)
  {}

  // ----- all searches -----

  /** Searches that are not waiting for frames, but in their reclaim or in the last round. */
  ghost function Busy(s: World): set<nat> {
    set k | k in s.jobs && Hungry(s.jobs[k]) && (s.jobs[k].search.priority == 0 || s.jobs[k].search.stage.AtScan?)
  }

  predicate LooseEnds(s: World) {
    SomeFree(s) || Victims(s) || Plenty(s)
  }

  /** All jobs wait, and each search that has its turn is stalled. */
  ghost predicate Cornered(s: World) {
    && s.jobs != map[] && AllWait(s) && !LooseEnds(s)
    && forall k {:trigger Looks(s, k)} :: Looks(s, k) ==> k !in Busy(s)
  }

  /** No page is accessed or active, and no search is in its last round. */
  ghost predicate Easy(s: World) {
    Cool(s) && forall k {:trigger s.jobs[k]} :: k in s.jobs && Hungry(s.jobs[k]) ==> s.jobs[k].search.priority > 0
  }

  lemma KeptSame(s: World, t: World, k: nat)
    requires Kept(s, t, k)
    ensures Todo(t) == Todo(s)
  {
    forall j | j in s.jobs ensures j in t.jobs && Rank(t.jobs[j]) == Rank(s.jobs[j]) {
      SameRank(s.jobs[j], t.jobs[j]);
    }
  }

  lemma StallsLess(s: World, t: World, k: nat)
    requires Kept(s, t, k) && Stalled(t, k) && Hungry(s.jobs[k])
    ensures Busy(t) <= Busy(s) && k !in Busy(t) && (!OthersScan(s, k) ==> !LooseEnds(t)) && StillThere(s, t)
    ensures |Busy(t)| <= |Busy(s)| && (k in Busy(s) ==> |Busy(t)| < |Busy(s)|)
  {
    assert OthersScan(t, k) ==> OthersScan(s, k);
    hide Plenty, OthersScan;
    SubsetCard(Busy(t), Busy(s) - {k});
  }

  /** No search is given up. */
  ghost predicate StillThere(s: World, t: World) {
    forall j {:trigger t.jobs[j]} {:trigger s.jobs[j]} :: j in s.jobs && Hungry(s.jobs[j]) ==>
      j in t.jobs && (Hungry(t.jobs[j]) || Fed(t.jobs[j]))
  }

  /** There is less to do, or fewer searches are at work, or nothing is left to find. */
  ghost predicate Further(s: World, t: World) {
    || Todo(t) < Todo(s)
    || (Todo(t) == Todo(s) && (|Busy(t)| < |Busy(s)| || (|Busy(t)| <= |Busy(s)| && LooseEnds(s) && !LooseEnds(t))))
  }

  lemma ServedFurther(s: World, t: World, k: nat)
    requires Served(s, t, k)
    ensures Todo(t) < Todo(s) && StillThere(s, t)
    ensures Easy(s) && Cool(t) ==> Easy(t)
  {
    hide Todo, Cool;
    LessTodo(s, t, k);
  }

  lemma KeptEasy(s: World, t: World, k: nat)
    requires Kept(s, t, k) && Stalled(t, k) && Easy(s) && Cool(t)
    ensures Easy(t)
  {
    hide Cool;
  }

  lemma NextEasy(s: World, k: nat, c: Chance)
    requires Easy(s) && k in s.jobs && !Waits(s, k) && Step(s, NextOf(s, k, c)).Next?
    requires !c.bits.accessed && !c.promotes
    ensures Easy(Step(s, NextOf(s, k, c)).world)
  {
    hide Step, NextOf, Waits, Cool, Abides;
    var a := NextOf(s, k, c);
    var t := Step(s, a).world;
    MildIsCalm(s, a, c);
    StepCools(s, a);
    forall j | j in t.jobs && Hungry(t.jobs[j]) ensures t.jobs[j].search.priority > 0 {
      StepFromBefore(s, a, j);
    }
  }

  /** A job that does not wait goes on. */
  lemma NextOnward(s: World, ch: Luck, k: nat, vas: set<nat>) returns (steps: seq<Action>, t: World)
    requires WithSlots(s, vas) && k in s.jobs && !Waits(s, k)
    ensures Reaches(s, ch, steps, t) && Further(s, t) && StillThere(s, t) && (Easy(s) && Mild(ch) ==> Easy(t))
  {
    hide Reaches, WithSlots, Step, Waits, NextOf, Todo, Easy, Abides;
    var c := ch([]);
    NextSteps(s, k, c, vas);
    NextLess(s, k, c);
    if Easy(s) && Mild(ch) { NextEasy(s, k, c); }
    steps := [NextOf(s, k, c)];
    t := ByStep(s, ch, NextOf(s, k, c));
    forall j | j in s.jobs && Hungry(s.jobs[j]) ensures j in t.jobs && (Hungry(t.jobs[j]) || Fed(t.jobs[j])) {
      NextFeeds(s, k, c, j);
    }
  }

  /** Of a batch that waits some page has no frame. */
  lemma SomeHungry(s: World, j: nat) returns (i: nat)
    requires AllWait(s) && j in s.jobs
    ensures i in s.jobs && Hungry(s.jobs[i])
  {
    assert Waits(s, j);
    i := j;
    if s.jobs[j].Reading? {
      i :| i in s.jobs && InBatch(s.jobs[i], s.jobs[j].batch) && !Ready(s.jobs[i]);
      assert Waits(s, i);
    }
  }

  /** The search to go on with: a busy one, if one has its turn. */
  lemma Chosen(s: World) returns (k: nat)
    requires AllWait(s) && InTurn(s) && s.jobs != map[] && !Cornered(s)
    ensures Looks(s, k) && (k in Busy(s) || (LooseEnds(s) && !OthersScan(s, k)))
  {
    hide Looks, AllWait, Busy, LooseEnds;
    if i: nat :| Looks(s, i) && i in Busy(s) {
      k := i;
    } else {
      var j :| j in s.jobs;
      var h := SomeHungry(s, j);
      k := Looker(s, h);
      forall i | i in s.jobs && ScansAt(s.jobs[i]) ensures Looks(s, i) && i in Busy(s) {
        ScansBusy(s, i);
      }
    }
  }

  lemma ScansBusy(s: World, i: nat)
    requires InTurn(s) && i in s.jobs && ScansAt(s.jobs[i])
    ensures Looks(s, i) && i in Busy(s)
  {
    LooksHungry(s, i);
    hide Looks;
  }

  lemma SearchOnward(s: World, ch: Luck, vas: set<nat>) returns (steps: seq<Action>, t: World)
    requires WithSlots(s, vas) && AllWait(s) && s.jobs != map[] && !Cornered(s)
    ensures || (Fails(s, ch, steps) && !(Easy(s) && Mild(ch)))
            || (Reaches(s, ch, steps, t) && Further(s, t) && StillThere(s, t) && (Easy(s) && Mild(ch) ==> Easy(t)))
  {
    hide Reaches, AllWait, Fails, Served, Kept, Stalled, Cornered, Busy, LooseEnds, Todo, Cool, Victims, Yields, Mild;
    hide Sound, Matched, InTurn, Within, OthersScan;
    var k := Chosen(s);
    hide WithSlots;
    LooksHungry(s, k);
    steps, t := LookOn(s, ch, k, vas);
    OnlyOne(s, ch, steps, t);
    if !Fails(s, ch, steps) {
      if Cool(s) && Mild(ch) { LeadsCool(s, ch, steps, t); }
      if Served(s, t, k) {
        ServedFurther(s, t, k);
      } else {
        KeptSame(s, t, k);
        StallsLess(s, t, k);
        if Easy(s) && Mild(ch) { KeptEasy(s, t, k); }
      }
    }
  }

  /** While there is a job, and the jobs are not cornered, one of them can go on. */
  lemma Onward(s: World, ch: Luck, vas: set<nat>) returns (steps: seq<Action>, t: World)
    requires WithSlots(s, vas) && s.jobs != map[] && !Cornered(s)
    ensures || (Fails(s, ch, steps) && !(Easy(s) && Mild(ch)))
            || (Reaches(s, ch, steps, t) && Further(s, t) && StillThere(s, t) && (Easy(s) && Mild(ch) ==> Easy(t)))
  {
    hide Reaches, WithSlots, Fails, Waits, Cornered, Further, StillThere, Easy, Mild;
    if k :| k in s.jobs && !Waits(s, k) {
      steps, t := NextOnward(s, ch, k, vas);
    } else {
      steps, t := SearchOnward(s, ch, vas);
    }
  }

  /** From every world with slots, whatever was going on, and whatever chance brings, the
      jobs that are there can be scheduled so that a search gets its frame, or one fails
      with "Out of memory", or all are cornered.  None fails that is not in its last
      round, while no page is accessed or active. */
  lemma {:induction false} SearchEnds(s: World, ch: Luck, j: nat, vas: set<nat>) returns (steps: seq<Action>, t: World)
    requires WithSlots(s, vas) && j in s.jobs && (Hungry(s.jobs[j]) || Fed(s.jobs[j]))
    ensures || (Fails(s, ch, steps) && !(Easy(s) && Mild(ch)))
            || (Reaches(s, ch, steps, t) && (Cornered(t) || (j in t.jobs && Fed(t.jobs[j]))))
    decreases Todo(s), |Busy(s)|, if LooseEnds(s) then 1 else 0
  {
    hide Reaches, WithSlots, Fails, Todo, Cornered, Busy, LooseEnds, Easy, Mild, After;
    if Fed(s.jobs[j]) || Cornered(s) {
      steps, t := [], s;
      NoSteps(s, ch);
    } else {
      steps, t := Onward(s, ch, vas);
      OnlyOne(s, ch, steps, t);
      if !Fails(s, ch, steps) {
        Leads(s, ch, steps, t, vas);
        MildAfter(ch, steps);
        var rest, u := SearchEnds(t, After(ch, steps), j, vas);
        OnlyOne(t, After(ch, steps), rest, u);
        if Fails(t, After(ch, steps), rest) { ThenFails(s, ch, steps, t, rest); } else { Then(s, ch, steps, t, rest, u); }
        steps, t := steps + rest, u;
      }
    }
  }

  /** No page is in transition, and each is on a list. */
  ghost predicate AllAtRest(s: World) {
    s.jobs == map[]
    && forall va {:trigger s.pages[va]} :: va in s.pages ==> !s.pages[va].migrating && s.pages[va].list.Some?
  }

  lemma RestsAll(s: World, vas: set<nat>)
    requires WithSlots(s, vas) && s.jobs == map[]
    ensures AllAtRest(s)
  {
    var truth := SomeTruth(s, vas);
    forall va | va in s.pages ensures !s.pages[va].migrating && s.pages[va].list.Some? {
      assert PageOk(s, truth, va);
    }
  }

  /** And so that every transition ends, with the same exceptions: all pages come to rest. */
  lemma {:induction false} ComesToRest(s: World, ch: Luck, vas: set<nat>) returns (steps: seq<Action>, t: World)
    requires WithSlots(s, vas)
    ensures || (Fails(s, ch, steps) && !(Easy(s) && Mild(ch)))
            || (Reaches(s, ch, steps, t) && (Cornered(t) || AllAtRest(t)) && (Easy(s) && Mild(ch) ==> Easy(t)))
    decreases Todo(s), |Busy(s)|, if LooseEnds(s) then 1 else 0
  {
    hide Reaches, WithSlots, Fails, Todo, StillThere, AllAtRest, Cornered, Busy, LooseEnds, Easy, Mild, After;
    if s.jobs == map[] || Cornered(s) {
      steps, t := [], s;
      NoSteps(s, ch);
      if s.jobs == map[] { RestsAll(s, vas); }
    } else {
      steps, t := Onward(s, ch, vas);
      OnlyOne(s, ch, steps, t);
      if !Fails(s, ch, steps) {
        Leads(s, ch, steps, t, vas);
        MildAfter(ch, steps);
        var rest, u := ComesToRest(t, After(ch, steps), vas);
        OnlyOne(t, After(ch, steps), rest, u);
        if Fails(t, After(ch, steps), rest) { ThenFails(s, ch, steps, t, rest); } else { Then(s, ch, steps, t, rest, u); }
        steps, t := steps + rest, u;
      }
    }
  }
}
