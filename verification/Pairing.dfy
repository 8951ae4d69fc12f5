/** A search that has a page in hand, or evicts one, and the job that does this for it
    name each other. */
module Pairing {
  import opened Machine
  import opened SwapIn
  import opened Protocol
  import opened Ownership
  import opened Steps

  predicate Evicts(job: Job) {
    job.Picked? || job.Marked? || job.Guarded? || job.Sampled? || job.WithSlot? || job.Written? || job.Gone?
    || job.Moved? || job.Flagged? || job.Listed? || job.Spare?
  }

  /** The search a job works for. */
  function WhoseOf(job: Job): Option<nat> {
    if Evicts(job) || Scanned(job) then job.whose else None
  }

  predicate Hungry(job: Job) {
    job.WantFrame? || Starves(job)
  }

  /** The job that works for a search. */
  function HelperOf(job: Job): Option<nat> {
    if !Hungry(job) then None
    else
      match job.search.stage
      case AtScan(_, hand) => hand
      case Evicting(i) => Some(i)
      case _ => None
  }

  predicate ScansNow(job: Job) {
    Hungry(job) && job.search.stage.AtScan?
  }

  ghost predicate HelperOk(s: World, i: nat)
    requires i in s.jobs
  {
    && (s.jobs[i].Spare? ==> s.jobs[i].whose.Some?)
    && (WhoseOf(s.jobs[i]).Some? ==>
          && WhoseOf(s.jobs[i]).value in s.jobs
          && HelperOf(s.jobs[WhoseOf(s.jobs[i]).value]) == Some(i))
  }

  ghost predicate SeekerOk(s: World, k: nat)
    requires k in s.jobs
  {
    HelperOf(s.jobs[k]).Some? ==>
      && HelperOf(s.jobs[k]).value in s.jobs
      && WhoseOf(s.jobs[HelperOf(s.jobs[k]).value]) == Some(k)
      && (ScansNow(s.jobs[k]) <==> Scanned(s.jobs[HelperOf(s.jobs[k]).value]))
  }

  ghost predicate Matched(s: World) {
    && (forall i {:trigger HelperOk(s, i)} :: i in s.jobs ==> HelperOk(s, i))
    && (forall k {:trigger SeekerOk(s, k)} :: k in s.jobs ==> SeekerOk(s, k))
  }

  lemma StartMatched(frames: set<nat>, disk: map<nat, Bytes>)
    ensures Matched(Start(frames, disk))
  {}

  // ----- steps that change one job -----

  ghost predicate OnlyJob(s: World, t: World, j: nat) {
    forall k {:trigger k in t.jobs} {:trigger k in s.jobs} :: k != j ==>
      (k in t.jobs <==> k in s.jobs) && (k in s.jobs ==> t.jobs[k] == s.jobs[k])
  }

  /** Nobody works for the job, and it works for nobody. */
  predicate Single(s: World, j: nat) {
    j in s.jobs ==> WhoseOf(s.jobs[j]) == None && HelperOf(s.jobs[j]) == None && !s.jobs[j].Spare?
  }

  predicate SamePartner(x: Job, y: Job) {
    && WhoseOf(x) == WhoseOf(y) && HelperOf(x) == HelperOf(y) && Scanned(x) == Scanned(y)
    && (y.Spare? ==> y.whose.Some?)
    && ScansNow(x) == ScansNow(y)
  }

  lemma OneJobLinks(s: World, t: World, j: nat)
    requires Matched(s) && OnlyJob(s, t, j)
    requires (Single(s, j) && Single(t, j)) || (j in s.jobs && j in t.jobs && SamePartner(s.jobs[j], t.jobs[j]))
    ensures Matched(t)
  {
    hide WhoseOf, HelperOf, Scanned, ScansNow;
    forall i | i in t.jobs ensures HelperOk(t, i) {
      if i in s.jobs { assert HelperOk(s, i); }
    }
    forall k | k in t.jobs ensures SeekerOk(t, k) {
      if k in s.jobs { assert SeekerOk(s, k); }
    }
  }

  lemma FaultLinks(s: World, j: nat, va: nat)
    requires Matched(s) && DoFaultNew(s, j, va).Next?
    ensures Matched(DoFaultNew(s, j, va).world)
  {
    hide Matched;
    OneJobLinks(s, DoFaultNew(s, j, va).world, j);
  }

  lemma CheckLinks(s: World, j: nat)
    requires Matched(s) && DoCheckNew(s, j).Next?
    ensures Matched(DoCheckNew(s, j).world)
  {
    hide Matched;
    var t := DoCheckNew(s, j).world;
    assert t.jobs == s.jobs - {j} || t.jobs == s.jobs[j := Adding(s.jobs[j].va)];
    hide DoCheckNew;
    OneJobLinks(s, t, j);
  }

  lemma FillLinks(s: World, a: Action)
    requires Matched(s) && TouchStep(s, a).Next? && (a.FillZero? || a.Unmark? || a.Track?)
    ensures Matched(TouchStep(s, a).world)
  {
    hide Matched, DoLoad, DoStore, DoFaultNew, DoCheckNew, ZeroPage;
    OneJobLinks(s, TouchStep(s, a).world, a.j);
  }

  lemma TouchLinks(s: World, a: Action)
    requires Matched(s) && TouchStep(s, a).Next?
    ensures Matched(TouchStep(s, a).world)
  {
    hide Matched, DoFaultNew, DoCheckNew, DoFillZero, DoUnmark, DoTrack;
    if a.Load? || a.Store? {
      SameJobsLink(s, TouchStep(s, a).world);
    } else if a.FaultNew? {
      FaultLinks(s, a.j, a.va);
    } else if a.CheckNew? {
      CheckLinks(s, a.j);
    } else {
      FillLinks(s, a);
    }
  }

  lemma SameJobsLink(s: World, t: World)
    requires Matched(s) && t.jobs == s.jobs
    ensures Matched(t)
  {
    forall i | i in t.jobs ensures HelperOk(t, i) { assert HelperOk(s, i); }
    forall k | k in t.jobs ensures SeekerOk(t, k) { assert SeekerOk(s, k); }
  }

  /** A search goes on with no job at work for it. */
  lemma SetSearchLinks(s: World, j: nat, search: Search)
    requires Matched(s) && j in s.jobs && Searches(s.jobs[j]) && Single(s, j)
    requires search.stage.AtScan? ==> search.stage.hand == None
    requires !search.stage.Evicting?
    ensures Matched(SetSearch(s, j, search))
  {
    hide Matched;
    OneJobLinks(s, SetSearch(s, j, search), j);
  }

  lemma SearchAlone(s: World, a: Action)
    requires SearchStep(s, a).Next?
    ensures a.j in s.jobs && Searches(s.jobs[a.j]) && Single(s, a.j)
  {
    hide Plenty, StartSweep, TurnOf, IsFree;
  }

  lemma SearchLinks(s: World, a: Action)
    requires Matched(s) && SearchStep(s, a).Next?
    ensures Matched(SearchStep(s, a).world)
  {
    hide Matched, Plenty, StartSweep, TurnOf, IsFree, Looks, SetSearch, SearchStep, Single;
    SearchAlone(s, a);
    if a.TakeFrame? {
      TakeLinks(s, a.j, a.f);
    } else {
      SearchIsSet(s, a);
      SetSearchLinks(s, a.j, SearchAfter(s, a));
    }
  }

  lemma TakeLinks(s: World, j: nat, f: nat)
    requires Matched(s) && SearchStep(s, TakeFrame(j, f)).Next? && Single(s, j)
    ensures Matched(SearchStep(s, TakeFrame(j, f)).world)
  {
    hide Matched, Looks;
    LooksSupplied(s, j, f);
    OneJobLinks(s, SearchStep(s, TakeFrame(j, f)).world, j);
  }

  lemma CopyLinks(s: World, a: Action)
    requires Matched(s) && BringStep(s, a).Next? && (a.CopyIn? || a.Publish?)
    ensures Matched(BringStep(s, a).world)
  {
    hide Matched, DoClaim, DoUnlist, DoSubmit, DoComplete;
    OneJobLinks(s, BringStep(s, a).world, a.j);
  }

  lemma ReadLinks(s: World, a: Action)
    requires Matched(s) && BringStep(s, a).Next? && (a.Submit? || a.Complete?)
    ensures Matched(BringStep(s, a).world)
  {
    hide Matched, DoCopyIn, DoPublish, DoClaim, DoUnlist;
    OneJobLinks(s, BringStep(s, a).world, a.j);
  }

  lemma BringLinks(s: World, a: Action)
    requires Matched(s) && BringStep(s, a).Next?
    ensures Matched(BringStep(s, a).world)
  {
    hide Matched, DoCopyIn, DoPublish, DoSubmit, DoComplete;
    if a.CopyIn? || a.Publish? {
      CopyLinks(s, a);
    } else if a.Submit? || a.Complete? {
      ReadLinks(s, a);
    } else {
      OneJobLinks(s, BringStep(s, a).world, a.j);
    }
  }

  lemma SlotLinks(s: World, a: Action)
    requires Matched(s) && WriteStep(s, a).Next? && (a.TakeSlot? || a.WriteOut? || a.Zap?)
    ensures Matched(WriteStep(s, a).world)
  {
    hide Matched, DoPick, DoPickFor, DoMark, DoGuard, DoSample;
    OneJobLinks(s, WriteStep(s, a).world, a.j);
  }

  lemma WriteLinks(s: World, a: Action)
    requires Matched(s) && WriteStep(s, a).Next? && !a.PickFor?
    ensures Matched(WriteStep(s, a).world)
  {
    hide Matched, DoPickFor, DoTakeSlot, DoWriteOut, DoZap;
    if a.TakeSlot? || a.WriteOut? || a.Zap? {
      SlotLinks(s, a);
    } else {
      OneJobLinks(s, WriteStep(s, a).world, a.j);
    }
  }

  lemma RetireLinks(s: World, a: Action)
    requires Matched(s) && RetireStep(s, a).Next?
    ensures Matched(RetireStep(s, a).world)
  {
    hide Matched;
    OneJobLinks(s, RetireStep(s, a).world, a.j);
  }

  lemma ReturnLinks(s: World, truth: map<nat, Bytes>, a: Action)
    requires Sound(s, truth) && Matched(s) && ReturnStep(s, a).Next? && !a.HandOver?
    ensures Matched(ReturnStep(s, a).world)
  {
    assert JobOk(s, a.j);
    if a.Release? { assert PageOk(s, truth, s.jobs[a.j].va); }
    hide Matched, Sound, JobOk, PageOk;
    OneJobLinks(s, ReturnStep(s, a).world, a.j);
  }

  lemma ScanLinks(s: World, a: Action)
    requires Matched(s) && ScanStep(s, a).Next? && !a.SweepTake? && !a.ScanPut?
    ensures Matched(ScanStep(s, a).world)
  {
    hide Matched;
    OneJobLinks(s, ScanStep(s, a).world, a.j);
  }

  // ----- steps that pair or part two jobs -----

  /** Jobs `j` and `k` differ; nobody else is concerned. */
  ghost predicate OnlyTwo(s: World, t: World, j: nat, k: nat) {
    forall i {:trigger i in t.jobs} {:trigger i in s.jobs} :: i != j && i != k ==>
      (i in t.jobs <==> i in s.jobs) && (i in s.jobs ==> t.jobs[i] == s.jobs[i])
  }

  lemma PairUp(s: World, t: World, j: nat, k: nat)
    requires Matched(s) && OnlyTwo(s, t, j, k) && j in s.jobs && Single(s, j) && k !in s.jobs
    requires j in t.jobs && k in t.jobs && WhoseOf(t.jobs[k]) == Some(j) && HelperOf(t.jobs[k]) == None
    requires HelperOf(t.jobs[j]) == Some(k) && WhoseOf(t.jobs[j]) == None && !t.jobs[j].Spare? && !t.jobs[k].Spare?
    requires ScansNow(t.jobs[j]) == Scanned(t.jobs[k])
    ensures Matched(t)
  {
    hide WhoseOf, HelperOf, Scanned, ScansNow;
    forall i | i in t.jobs ensures HelperOk(t, i) {
      if i in s.jobs { assert HelperOk(s, i); }
    }
    forall i | i in t.jobs ensures SeekerOk(t, i) {
      if i in s.jobs { assert SeekerOk(s, i); }
    }
  }

  lemma PartFrom(s: World, t: World, j: nat, k: nat)
    requires Matched(s) && OnlyTwo(s, t, j, k) && j in s.jobs && k in s.jobs && j != k
    requires HelperOf(s.jobs[j]) == Some(k) && WhoseOf(s.jobs[k]) == Some(j)
    requires WhoseOf(s.jobs[j]) == None && HelperOf(s.jobs[k]) == None
    requires Single(t, j) && Single(t, k)
    ensures Matched(t)
  {
    hide WhoseOf, HelperOf, Scanned, ScansNow;
    forall i | i in t.jobs ensures HelperOk(t, i) {
      if i in s.jobs { assert HelperOk(s, i); }
    }
    forall i | i in t.jobs ensures SeekerOk(t, i) {
      if i in s.jobs { assert SeekerOk(s, i); }
    }
  }

  lemma PickForLinks(s: World, j: nat, k: nat, va: nat)
    requires Matched(s) && DoPickFor(s, j, k, va).Next?
    ensures Matched(DoPickFor(s, j, k, va).world)
  {
    hide Matched;
    PairUp(s, DoPickFor(s, j, k, va).world, j, k);
  }

  lemma SweepTakeLinks(s: World, j: nat, k: nat, va: nat)
    requires Matched(s) && DoSweepTake(s, j, k, va).Next?
    ensures Matched(DoSweepTake(s, j, k, va).world)
  {
    hide Matched, TurnOf;
    PairUp(s, DoSweepTake(s, j, k, va).world, j, k);
  }

  lemma HandOverLinks(s: World, j: nat)
    requires Matched(s) && DoHandOver(s, j).Next?
    ensures Matched(DoHandOver(s, j).world)
  {
    assert HelperOk(s, j);
    hide Matched;
    PartFrom(s, DoHandOver(s, j).world, s.jobs[j].whose.value, j);
  }

  lemma ScanPutLinks(s: World, j: nat, to: Queue)
    requires Matched(s) && DoScanPut(s, j, to).Next?
    ensures Matched(DoScanPut(s, j, to).world)
  {
    assert HelperOk(s, j);
    var w := s.jobs[j].whose;
    if w.Some? {
      assert SeekerOk(s, w.value);
      hide Matched;
      PartFrom(s, DoScanPut(s, j, to).world, w.value, j);
    } else {
      hide Matched;
      OneJobLinks(s, DoScanPut(s, j, to).world, j);
    }
  }

  /** Every step keeps searches and their helpers paired. */
  lemma StepLinks(s: World, truth: map<nat, Bytes>, a: Action)
    requires Sound(s, truth) && Matched(s) && Step(s, a).Next?
    ensures Matched(Step(s, a).world)
  {
    hide Matched, Sound, TouchStep, SearchStep, BringStep, RetireStep;
    match KindOf(a)
    case Touching => TouchLinks(s, a);
    case Searching => SearchLinks(s, a);
    case Bringing => BringLinks(s, a);
    case Writing => if a.PickFor? { PickForLinks(s, a.j, a.k, a.va); } else { WriteLinks(s, a); }
    case Retiring => RetireLinks(s, a);
    case Returning => if a.HandOver? { HandOverLinks(s, a.j); } else { ReturnLinks(s, truth, a); }
    case Scans =>
      if a.SweepTake? { SweepTakeLinks(s, a.j, a.k, a.va); }
      else if a.ScanPut? { ScanPutLinks(s, a.j, a.to); }
      else { ScanLinks(s, a); }
  }
}
