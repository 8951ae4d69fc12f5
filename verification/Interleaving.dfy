/** Whole runs of the protocol, from a machine where nothing is tracked yet. */
module Interleaving {
  import opened Machine
  import opened SwapIn
  import opened Protocol
  import opened Ownership
  import opened Steps

  // ----- one step -----

  /** What was last stored in each page, after the step `a` from `s`. */
  function Stored(s: World, truth: map<nat, Bytes>, a: Action): map<nat, Bytes> {
    match a
    case Store(va, bytes) => truth[va := bytes]
    case CheckNew(j) => if j in s.jobs && s.jobs[j].HasFrame? then AddedTruth(s, truth, j) else truth
    case _ => truth
  }

  lemma TouchKeeps(s: World, truth: map<nat, Bytes>, a: Action)
    requires Sound(s, truth) && TouchStep(s, a) != Blocked
    ensures TouchStep(s, a).Next? ==> Sound(TouchStep(s, a).world, Stored(s, truth, a))
    ensures TouchStep(s, a).Crash? ==> a.TakeSlot? || a.MissVictim?
  {
    hide Sound;
    match a
    case Load(va) => LoadKeeps(s, truth, va);
    case Store(va, bytes) => StoreKeeps(s, truth, va, bytes);
    case FaultNew(j, va) => FaultNewKeeps(s, truth, j, va);
    case CheckNew(j) => CheckNewKeeps(s, truth, j);
    case FillZero(j, bits) => FillZeroKeeps(s, truth, j, bits);
    case Unmark(j) => UnmarkKeeps(s, truth, j);
    case Track(j) => TrackKeeps(s, truth, j);
    case _ =>
  }

  lemma BringKeeps(s: World, truth: map<nat, Bytes>, a: Action)
    requires Sound(s, truth) && BringStep(s, a) != Blocked
    ensures BringStep(s, a).Next? ==> Sound(BringStep(s, a).world, Stored(s, truth, a))
    ensures BringStep(s, a).Crash? ==> a.TakeSlot? || a.MissVictim?
  {
    hide Sound;
    match a
    case Claim(j, va, batch) => ClaimKeeps(s, truth, j, va, batch);
    case Unlist(j) => UnlistKeeps(s, truth, j);
    case Submit(j) => SubmitKeeps(s, truth, j);
    case Complete(j) => CompleteKeeps(s, truth, j);
    case CopyIn(j, bits) => CopyInKeeps(s, truth, j, bits);
    case Publish(j) => PublishKeeps(s, truth, j);
    case _ =>
  }

  lemma WriteKeeps(s: World, truth: map<nat, Bytes>, a: Action)
    requires Sound(s, truth) && WriteStep(s, a) != Blocked
    ensures WriteStep(s, a).Next? ==> Sound(WriteStep(s, a).world, Stored(s, truth, a))
    ensures WriteStep(s, a).Crash? ==> a.TakeSlot? || a.MissVictim?
  {
    hide Sound;
    match a
    case Pick(j, va) => PickKeeps(s, truth, j, va, None);
    case PickFor(j, k, va) => PickForKeeps(s, truth, j, k, va);
    case Mark(j) => MarkKeeps(s, truth, j);
    case Guard(j) => GuardKeeps(s, truth, j);
    case Sample(j) => SampleKeeps(s, truth, j);
    case TakeSlot(j, d) => TakeSlotKeeps(s, truth, j, d);
    case WriteOut(j) => WriteOutKeeps(s, truth, j);
    case Zap(j) => ZapKeeps(s, truth, j);
    case _ =>
  }

  lemma RetireKeeps(s: World, truth: map<nat, Bytes>, a: Action)
    requires Sound(s, truth) && RetireStep(s, a) != Blocked
    ensures RetireStep(s, a).Next? ==> Sound(RetireStep(s, a).world, Stored(s, truth, a))
    ensures RetireStep(s, a).Crash? ==> a.TakeSlot? || a.MissVictim?
  {
    hide Sound;
    match a
    case Move(j) => MoveKeeps(s, truth, j);
    case Flag(j) => FlagKeeps(s, truth, j);
    case List(j) => ListKeeps(s, truth, j);
    case _ =>
  }

  lemma ReturnKeeps(s: World, truth: map<nat, Bytes>, a: Action)
    requires Sound(s, truth) && ReturnStep(s, a) != Blocked
    ensures ReturnStep(s, a).Next? ==> Sound(ReturnStep(s, a).world, Stored(s, truth, a))
    ensures ReturnStep(s, a).Crash? ==> a.TakeSlot? || a.MissVictim?
  {
    hide Sound;
    match a
    case FreeFrame(j) => FreeFrameKeeps(s, truth, j);
    case Release(j) => ReleaseKeeps(s, truth, j);
    case HandOver(j) => HandOverKeeps(s, truth, j);
    case _ =>
  }

  lemma ScanKeeps(s: World, truth: map<nat, Bytes>, a: Action)
    requires Sound(s, truth) && ScanStep(s, a) != Blocked
    ensures ScanStep(s, a).Next? ==> Sound(ScanStep(s, a).world, Stored(s, truth, a))
    ensures ScanStep(s, a).Crash? ==> a.TakeSlot? || a.MissVictim?
  {
    hide Sound;
    match a
    case ScanTake(j, va) => ScanTakeKeeps(s, truth, j, va, None);
    case SweepTake(j, k, va) => SweepTakeKeeps(s, truth, j, k, va);
    case Look(j) => LookKeeps(s, truth, j);
    case ScanPut(j, to) => ScanPutKeeps(s, truth, j, to);
    case _ =>
  }

  lemma NothingStored(s: World, truth: map<nat, Bytes>, a: Action)
    requires KindOf(a) == Searching
    ensures Stored(s, truth, a) == truth
  {}

  lemma StepKeeps(s: World, truth: map<nat, Bytes>, a: Action)
    requires Sound(s, truth) && Step(s, a) != Blocked
    ensures Step(s, a).Next? ==> Sound(Step(s, a).world, Stored(s, truth, a))
    ensures Step(s, a).Crash? ==> a.TakeSlot? || a.MissVictim?
  {
    hide Sound, Stored, TouchStep, SearchStep, BringStep, WriteStep, RetireStep, ReturnStep, ScanStep;
    match KindOf(a)
    case Touching => TouchKeeps(s, truth, a);
    case Searching =>
      NothingStored(s, truth, a);
      SearchStepKeeps(s, truth, a);
    case Bringing => BringKeeps(s, truth, a);
    case Writing => WriteKeeps(s, truth, a);
    case Retiring => RetireKeeps(s, truth, a);
    case Returning => ReturnKeeps(s, truth, a);
    case Scans => ScanKeeps(s, truth, a);
  }

  /** A job that needs a new slot, when every slot is taken. */
  ghost predicate DiskFull(s: World, a: Action) {
    && a.TakeSlot? && a.j in s.jobs && s.jobs[a.j].Sampled?
    && s.jobs[a.j].va in s.pages && s.pages[s.jobs[a.j].va].reserve.None?
    && forall d :: d in s.slots ==> !s.slots[d].Free?
  }

  /** A search whose last round fails. */
  ghost predicate Exhausted(s: World, a: Action) {
    && a.MissVictim? && LooksAt(s, a.j, AtVictim) && s.jobs[a.j].search.priority == 0
    && forall va :: va in s.pages ==> s.pages[va].list != Some(Eviction)
  }

  lemma TakeSlotCrash(s: World, truth: map<nat, Bytes>, j: nat, d: nat)
    requires Sound(s, truth)
    ensures DoTakeSlot(s, j, d) == Crash(NoDiskPage) <==> DiskFull(s, TakeSlot(j, d))
    ensures DoTakeSlot(s, j, d).Crash? ==> DoTakeSlot(s, j, d).why == NoDiskPage
  {
    if j in s.jobs && s.jobs[j].Sampled? {
      assert JobOk(s, j) && PageOk(s, truth, s.jobs[j].va);
    }
  }

  lemma MissVictimCrash(s: World, j: nat)
    ensures DoMissVictim(s, j) == Crash(OutOfMemory) <==> Exhausted(s, MissVictim(j))
    ensures DoMissVictim(s, j).Crash? ==> DoMissVictim(s, j).why == OutOfMemory
  {}

  /** Of all asserts only "no disk page found" and "Out of memory" can fail: the one
      exactly when a page without a slot is evicted and no slot is free, the other
      exactly when the last round of a search finds no victim. */
  lemma CrashIff(s: World, truth: map<nat, Bytes>, a: Action)
    requires Sound(s, truth)
    ensures Step(s, a) == Crash(NoDiskPage) <==> DiskFull(s, a)
    ensures Step(s, a) == Crash(OutOfMemory) <==> Exhausted(s, a)
    ensures Step(s, a) != Crash(Broken)
  {
    hide Sound, TouchStep, BringStep, RetireStep, ReturnStep, ScanStep, DoTakeSlot, DoMissVictim;
    if a.TakeSlot? {
      TakeSlotCrash(s, truth, a.j, a.d);
    } else if a.MissVictim? {
      MissVictimCrash(s, a.j);
    } else if Step(s, a) != Blocked {
      StepKeeps(s, truth, a);
    }
  }

  // ----- the disk is large enough when there is a slot for each page -----

  /** The page for which the slot `d` is taken. */
  ghost function UserOf(s: World, d: nat): nat
    requires d in s.slots
  {
    match s.slots[d]
    case OfPage(va) => va
    case OfJob(j) => if j in s.jobs && Holds(s.jobs[j]).Some? then Holds(s.jobs[j]).value else 0
    case Free => 0
  }

  lemma OneSlotEach(s: World, truth: map<nat, Bytes>, d: nat, e: nat)
    requires Sound(s, truth) && d in s.slots && e in s.slots && !s.slots[d].Free? && !s.slots[e].Free?
    ensures UserOf(s, d) in s.pages
    ensures UserOf(s, d) == UserOf(s, e) ==> d == e
  {
    assert SlotOk(s, d) && SlotOk(s, e);
    if s.slots[d].OfJob? { assert JobOk(s, s.slots[d].j); }
    if s.slots[e].OfJob? { assert JobOk(s, s.slots[e].j); }
    var va := UserOf(s, d);
    assert PageOk(s, truth, va);
    if s.pages[va].holder.Some? { assert JobOk(s, s.pages[va].holder.value); }
  }

  lemma {:induction false} InjectionCard(xs: set<nat>, ys: set<nat>, f: map<nat, nat>)
    requires xs <= f.Keys && forall x {:trigger f[x]} :: x in xs ==> f[x] in ys
    requires forall x, y {:trigger f[x], f[y]} :: x in xs && y in xs && f[x] == f[y] ==> x == y
    ensures |xs| <= |ys|
  {
    if xs != {} {
      var x :| x in xs;
      InjectionCard(xs - {x}, ys - {f[x]}, f);
    }
  }

  /** While no more pages are tracked than the disk has slots, a slot is found. */
  lemma SlotIsFound(s: World, truth: map<nat, Bytes>, a: Action)
    requires Sound(s, truth) && |s.pages| <= |s.slots|
    ensures Step(s, a) != Crash(NoDiskPage)
  {
    if Step(s, a) == Crash(NoDiskPage) {
      CrashIff(s, truth, a);
      var va := s.jobs[a.j].va;
      assert JobOk(s, a.j) && PageOk(s, truth, va);
      var f := map d | d in s.slots :: UserOf(s, d);
      forall d | d in s.slots ensures f[d] in s.pages.Keys - {va} {
        OneSlotEach(s, truth, d, d);
        assert SlotOk(s, d);
        if s.slots[d].OfJob? { assert JobOk(s, s.slots[d].j); }
      }
      forall d, e | d in s.slots && e in s.slots && f[d] == f[e] ensures d == e {
        OneSlotEach(s, truth, d, e);
      }
      InjectionCard(s.slots.Keys, s.pages.Keys - {va}, f);
    }
  }

  // ----- the shape of a step -----

  /** Steps of a search that look for something, and find nothing yet. */
  predicate Misses(a: Action) {
    a.MissFree? || a.Reclaim? || a.SweepOn? || a.MissVictim?
  }

  /** Steps that start a job. */
  predicate Begins(a: Action) {
    a.FaultNew? || a.Claim? || a.Pick? || a.PickFor? || a.ScanTake? || a.SweepTake?
  }

  predicate Brings(job: Job) {
    job.Claimed? || job.Detached? || job.Reading?
  }

  /** A first touch under way has an address, a page brought back a batch, and a search
      a priority and a stage, that it had before or that it starts with. */
  ghost predicate FromBefore(s: World, a: Action, t: World, j: nat)
    requires j in t.jobs
  {
    && (j !in s.jobs ==> Begins(a))
    && (t.jobs[j].WantFrame? || t.jobs[j].HasFrame? ==>
          if j in s.jobs then (s.jobs[j].WantFrame? || s.jobs[j].HasFrame?) && t.jobs[j].va == s.jobs[j].va
          else a.FaultNew? && t.jobs[j].va == a.va)
    && (Brings(t.jobs[j]) ==>
          if j in s.jobs then Brings(s.jobs[j]) && t.jobs[j].batch == s.jobs[j].batch
          else a.Claim? && t.jobs[j].batch == a.batch)
    && (Starves(t.jobs[j]) && j in s.jobs && s.jobs[j].Reading? ==> Starves(s.jobs[j]))
    && (Searches(t.jobs[j]) ==>
          || t.jobs[j].search == Search(PRIORITY, AtFree)
          || (j in s.jobs && Searches(s.jobs[j])
              && (t.jobs[j].search.priority == s.jobs[j].search.priority || (a.Reclaim? && Plenty(s)))
              && (s.jobs[j].search.stage == t.jobs[j].search.stage == AtFree || s.jobs[j].search.stage != AtFree
                  || (a.MissFree? && a.j == j))
              && (t.jobs[j].search.stage.AtScan? ==> s.jobs[j].search.stage.AtScan? || (a.Reclaim? && a.j == j))))
  }

  /** Steps that set no accessed bit and put no page on the active list. */
  predicate Calm(a: Action) {
    match a
    case Load(_) => false
    case Store(_, _) => false
    case FillZero(_, bits) => !bits.accessed
    case CopyIn(_, bits) => !bits.accessed
    case ScanPut(_, to) => to != Active
    case _ => true
  }

  ghost predicate Calmer(s: World, t: World) {
    && t.accessed <= s.accessed
    && forall va {:trigger t.pages[va]} :: va in t.pages && t.pages[va].list == Some(Active) ==>
         va in s.pages && s.pages[va].list == Some(Active)
  }

  ghost predicate SameKeys(s: World, a: Action, t: World) {
    && (Calm(a) ==> Calmer(s, t))
    && t.slots.Keys == s.slots.Keys && s.frames.Keys <= t.frames.Keys
    && (a.CheckNew? ==> a.j in s.jobs && s.jobs[a.j].HasFrame?)
    && t.pages.Keys == s.pages.Keys + (if a.CheckNew? then {s.jobs[a.j].va} else {})
  }

  lemma FillSameKeys(s: World, a: Action)
    requires TouchStep(s, a).Next? && (a.FillZero? || a.Unmark? || a.Track?)
    ensures SameKeys(s, a, TouchStep(s, a).world)
  {
    hide DoLoad, DoStore, DoFaultNew, DoCheckNew, ZeroPage;
  }

  lemma CheckSameKeys(s: World, a: Action)
    requires TouchStep(s, a).Next? && a.CheckNew?
    ensures SameKeys(s, a, TouchStep(s, a).world)
  {
    hide DoLoad, DoStore, DoFaultNew, DoFillZero, DoUnmark, DoTrack;
  }

  lemma TouchSameKeys(s: World, a: Action)
    requires TouchStep(s, a).Next?
    ensures SameKeys(s, a, TouchStep(s, a).world)
  {
    hide DoFillZero, DoUnmark, DoTrack, DoCheckNew;
    if a.CheckNew? {
      CheckSameKeys(s, a);
    } else if a.FillZero? || a.Unmark? || a.Track? {
      FillSameKeys(s, a);
    }
  }

  lemma FillFromBefore(s: World, a: Action, j: nat)
    requires TouchStep(s, a).Next? && (a.FillZero? || a.Unmark? || a.Track?) && j in TouchStep(s, a).world.jobs
    ensures FromBefore(s, a, TouchStep(s, a).world, j)
  {
    hide DoLoad, DoStore, DoFaultNew, DoCheckNew, ZeroPage;
  }

  lemma CheckFromBefore(s: World, a: Action, j: nat)
    requires TouchStep(s, a).Next? && a.CheckNew? && j in TouchStep(s, a).world.jobs
    ensures FromBefore(s, a, TouchStep(s, a).world, j)
  {
    hide DoLoad, DoStore, DoFaultNew, DoFillZero, DoUnmark, DoTrack;
  }

  lemma TouchFromBefore(s: World, a: Action, j: nat)
    requires TouchStep(s, a).Next? && j in TouchStep(s, a).world.jobs
    ensures FromBefore(s, a, TouchStep(s, a).world, j)
  {
    hide DoFillZero, DoUnmark, DoTrack, DoCheckNew;
    if a.CheckNew? {
      CheckFromBefore(s, a, j);
    } else if a.FillZero? || a.Unmark? || a.Track? {
      FillFromBefore(s, a, j);
    }
  }

  lemma SearchSameKeys(s: World, a: Action)
    requires SearchStep(s, a).Next?
    ensures SameKeys(s, a, SearchStep(s, a).world)
  {
    hide Plenty, Looks, SearchAfter;
    if a.TakeFrame? {
      LooksSupplied(s, a.j, a.f);
    } else {
      SearchIsSet(s, a);
      hide SearchStep;
    }
  }

  lemma SearchFromBefore(s: World, a: Action, j: nat)
    requires SearchStep(s, a).Next? && j in SearchStep(s, a).world.jobs
    ensures FromBefore(s, a, SearchStep(s, a).world, j)
  {
    hide Plenty, Looks, StartSweep, TurnOf;
    if a.TakeFrame? {
      LooksSupplied(s, a.j, a.f);
    } else {
      SearchIsSet(s, a);
      hide SearchStep;
    }
  }

  lemma BringSameKeys(s: World, a: Action)
    requires BringStep(s, a).Next?
    ensures SameKeys(s, a, BringStep(s, a).world)
  {}

  lemma BringFromBefore(s: World, a: Action, j: nat)
    requires BringStep(s, a).Next? && j in BringStep(s, a).world.jobs
    ensures FromBefore(s, a, BringStep(s, a).world, j)
  {}

  lemma SlotSameKeys(s: World, a: Action)
    requires WriteStep(s, a).Next? && (a.TakeSlot? || a.WriteOut? || a.Zap?)
    ensures SameKeys(s, a, WriteStep(s, a).world)
  {
    hide DoPick, DoPickFor, DoMark, DoGuard, DoSample;
  }

  lemma WriteSameKeys(s: World, a: Action)
    requires WriteStep(s, a).Next?
    ensures SameKeys(s, a, WriteStep(s, a).world)
  {
    hide DoTakeSlot, DoWriteOut, DoZap;
    if a.TakeSlot? || a.WriteOut? || a.Zap? { SlotSameKeys(s, a); }
  }

  lemma WriteFromBefore(s: World, a: Action, j: nat)
    requires WriteStep(s, a).Next? && j in WriteStep(s, a).world.jobs
    ensures FromBefore(s, a, WriteStep(s, a).world, j)
  {}

  lemma RetireSameKeys(s: World, a: Action)
    requires RetireStep(s, a).Next?
    ensures SameKeys(s, a, RetireStep(s, a).world)
  {}

  lemma RetireFromBefore(s: World, a: Action, j: nat)
    requires RetireStep(s, a).Next? && j in RetireStep(s, a).world.jobs
    ensures FromBefore(s, a, RetireStep(s, a).world, j)
  {}

  lemma HandOverSameKeys(s: World, j: nat)
    requires DoHandOver(s, j).Next?
    ensures SameKeys(s, HandOver(j), DoHandOver(s, j).world)
  {
    hide Supplied;
  }

  lemma ReleaseSameKeys(s: World, j: nat)
    requires DoRelease(s, j).Next?
    ensures SameKeys(s, Release(j), DoRelease(s, j).world)
  {}

  lemma ReturnSameKeys(s: World, a: Action)
    requires ReturnStep(s, a).Next?
    ensures SameKeys(s, a, ReturnStep(s, a).world)
  {
    hide DoHandOver, DoRelease;
    if a.HandOver? {
      HandOverSameKeys(s, a.j);
    } else if a.Release? {
      ReleaseSameKeys(s, a.j);
    }
  }

  lemma HandOverFromBefore(s: World, i: nat, j: nat)
    requires DoHandOver(s, i).Next? && j in DoHandOver(s, i).world.jobs
    ensures FromBefore(s, HandOver(i), DoHandOver(s, i).world, j)
  {}

  lemma ReturnFromBefore(s: World, a: Action, j: nat)
    requires ReturnStep(s, a).Next? && j in ReturnStep(s, a).world.jobs
    ensures FromBefore(s, a, ReturnStep(s, a).world, j)
  {
    hide DoHandOver;
    if a.HandOver? { HandOverFromBefore(s, a.j, j); }
  }

  lemma TakeSameKeys(s: World, a: Action)
    requires ScanStep(s, a).Next? && (a.ScanTake? || a.SweepTake?)
    ensures SameKeys(s, a, ScanStep(s, a).world)
  {
    hide DoLook, DoScanPut, TurnOf;
  }

  lemma ScanSameKeys(s: World, a: Action)
    requires ScanStep(s, a).Next?
    ensures SameKeys(s, a, ScanStep(s, a).world)
  {
    hide DoScanTake, DoSweepTake;
    if a.ScanTake? || a.SweepTake? { TakeSameKeys(s, a); }
  }

  lemma TakeFromBefore(s: World, a: Action, j: nat)
    requires ScanStep(s, a).Next? && (a.ScanTake? || a.SweepTake?) && j in ScanStep(s, a).world.jobs
    ensures FromBefore(s, a, ScanStep(s, a).world, j)
  {
    hide DoLook, DoScanPut, TurnOf;
  }

  lemma ScanFromBefore(s: World, a: Action, j: nat)
    requires ScanStep(s, a).Next? && j in ScanStep(s, a).world.jobs
    ensures FromBefore(s, a, ScanStep(s, a).world, j)
  {
    hide DoScanTake, DoSweepTake;
    if a.ScanTake? || a.SweepTake? { TakeFromBefore(s, a, j); }
  }

  lemma StepSameKeys(s: World, a: Action)
    requires Step(s, a).Next?
    ensures SameKeys(s, a, Step(s, a).world)
  {
    hide SameKeys, TouchStep, SearchStep, BringStep, WriteStep, RetireStep, ReturnStep, ScanStep;
    match KindOf(a)
    case Touching => TouchSameKeys(s, a);
    case Searching => SearchSameKeys(s, a);
    case Bringing => BringSameKeys(s, a);
    case Writing => WriteSameKeys(s, a);
    case Retiring => RetireSameKeys(s, a);
    case Returning => ReturnSameKeys(s, a);
    case Scans => ScanSameKeys(s, a);
  }

  lemma StepFromBefore(s: World, a: Action, j: nat)
    requires Step(s, a).Next? && j in Step(s, a).world.jobs
    ensures FromBefore(s, a, Step(s, a).world, j)
  {
    hide FromBefore, TouchStep, SearchStep, BringStep, WriteStep, RetireStep, ReturnStep, ScanStep;
    match KindOf(a)
    case Touching => TouchFromBefore(s, a, j);
    case Searching => SearchFromBefore(s, a, j);
    case Bringing => BringFromBefore(s, a, j);
    case Writing => WriteFromBefore(s, a, j);
    case Retiring => RetireFromBefore(s, a, j);
    case Returning => ReturnFromBefore(s, a, j);
    case Scans => ScanFromBefore(s, a, j);
  }

  // ----- runs -----

  /** What the program last stored at `va`, or zero. */
  function LastStored(steps: seq<Action>, va: nat): Bytes {
    if steps == [] then ZeroPage()
    else
      var a := steps[|steps| - 1];
      if a.Store? && a.va == va then a.bytes else LastStored(steps[..|steps| - 1], va)
  }

  ghost function Truth(s: World, steps: seq<Action>): map<nat, Bytes> {
    map va | va in s.pages :: LastStored(steps, va)
  }

  lemma StepPages(s: World, a: Action)
    requires Step(s, a).Next?
    ensures a.CheckNew? ==> a.j in s.jobs && s.jobs[a.j].HasFrame?
    ensures Step(s, a).world.pages.Keys == s.pages.Keys + if a.CheckNew? then {s.jobs[a.j].va} else {}
  {
    hide Step;
    StepSameKeys(s, a);
  }

  lemma StorePage(s: World, truth: map<nat, Bytes>, a: Action)
    requires Sound(s, truth) && a.Store? && Step(s, a).Next?
    ensures a.va in s.pages
  {}

  /** A page that was never added was never stored in. */
  lemma {:induction false} RunSound(frames: set<nat>, disk: map<nat, Bytes>, steps: seq<Action>)
    requires Run(Start(frames, disk), steps).Next?
    ensures var s := Run(Start(frames, disk), steps).world;
            && Sound(s, Truth(s, steps))
            && (forall va {:trigger LastStored(steps, va)} :: va !in s.pages ==> LastStored(steps, va) == ZeroPage())
  {
    hide Sound, Step;
    var s := Run(Start(frames, disk), steps).world;
    if steps == [] {
      StartSound(frames, disk);
      assert Truth(s, steps) == map[];
    } else {
      var was := steps[..|steps| - 1];
      var a := steps[|steps| - 1];
      RunSound(frames, disk, was);
      var s0 := Run(Start(frames, disk), was).world;
      StepKeeps(s0, Truth(s0, was), a);
      StepTruth(s0, was, a);
      assert steps == was + [a];
    }
  }

  lemma StepTruth(s: World, was: seq<Action>, a: Action)
    requires Sound(s, Truth(s, was)) && Step(s, a).Next?
    requires forall va {:trigger LastStored(was, va)} :: va !in s.pages ==> LastStored(was, va) == ZeroPage()
    ensures Truth(Step(s, a).world, was + [a]) == Stored(s, Truth(s, was), a)
    ensures forall va {:trigger LastStored(was + [a], va)} ::
              va !in Step(s, a).world.pages ==> LastStored(was + [a], va) == ZeroPage()
  {
    hide Sound, Step;
    var t := Step(s, a).world;
    StepPages(s, a);
    if a.Store? { StorePage(s, Truth(s, was), a); }
    assert (was + [a])[..|was|] == was;
    forall va ensures LastStored(was + [a], va) == if a.Store? && a.va == va then a.bytes else LastStored(was, va) {}
  }

  /** However the threads interleave, a load returns what was last stored, or zero. */
  lemma LoadsReadLastStore(frames: set<nat>, disk: map<nat, Bytes>, steps: seq<Action>, va: nat)
    requires Run(Start(frames, disk), steps).Next?
    ensures var r := Step(Run(Start(frames, disk), steps).world, Load(va));
            r.Next? ==> r.value == Some(LastStored(steps, va))
  {
    hide Sound;
    var s := Run(Start(frames, disk), steps).world;
    RunSound(frames, disk, steps);
    LoadKeeps(s, Truth(s, steps), va);
  }

  /** A page that is in no transition never makes the program wait, scanned or not. */
  lemma NeverWaits(s: World, truth: map<nat, Bytes>, va: nat, bytes: Bytes)
    requires Sound(s, truth) && va in s.pages && !s.pages[va].migrating && !s.pages[va].swappedOut
    ensures Step(s, Load(va)).Next? && va in truth && Step(s, Load(va)).value == Some(truth[va])
    ensures Step(s, Store(va, bytes)).Next?
    ensures var t := Step(s, Store(va, bytes)).world;
      t == s.(ram := s.ram[va := bytes], dirty := s.dirty + {va}, accessed := s.accessed + {va})
  {
    assert PageOk(s, truth, va);
    hide Sound, PageOk;
    AtHand(s, truth, va);
  }

  lemma AtHand(s: World, truth: map<nat, Bytes>, va: nat)
    requires va in s.pages && PageOk(s, truth, va) && !s.pages[va].migrating && !s.pages[va].swappedOut
    ensures va in s.ram && va !in s.protected && va in truth && s.ram[va] == truth[va]
  {
    hide Saved;
  }

  /** Pages are tracked, or wanted by a first touch, only at the addresses `vas`. */
  ghost predicate Within(s: World, vas: set<nat>) {
    s.pages.Keys <= vas
    && forall j {:trigger s.jobs[j]} :: j in s.jobs && (s.jobs[j].WantFrame? || s.jobs[j].HasFrame?) ==> s.jobs[j].va in vas
  }

  lemma StepWithin(s: World, a: Action, vas: set<nat>)
    requires Within(s, vas) && Step(s, a).Next? && (a.FaultNew? ==> a.va in vas)
    ensures Within(Step(s, a).world, vas) && SameKeys(s, a, Step(s, a).world)
  {
    hide Step;
    StepSameKeys(s, a);
    var t := Step(s, a).world;
    forall j | j in t.jobs && (t.jobs[j].WantFrame? || t.jobs[j].HasFrame?) ensures t.jobs[j].va in vas {
      StepFromBefore(s, a, j);
    }
  }

  ghost predicate FaultsWithin(steps: seq<Action>, vas: set<nat>) {
    forall i :: 0 <= i < |steps| && steps[i].FaultNew? ==> steps[i].va in vas
  }

  lemma {:induction false} RunWithin(frames: set<nat>, disk: map<nat, Bytes>, steps: seq<Action>, vas: set<nat>)
    requires FaultsWithin(steps, vas) && Run(Start(frames, disk), steps).Next?
    ensures var s := Run(Start(frames, disk), steps).world;
      Within(s, vas) && s.slots.Keys == disk.Keys && frames <= s.frames.Keys
  {
    hide Step, Within;
    if steps == [] {
      StartWithin(frames, disk, vas);
    } else {
      var was := steps[..|steps| - 1];
      RunWithin(frames, disk, was, vas);
      StepWithin(Run(Start(frames, disk), was).world, steps[|steps| - 1], vas);
    }
  }

  lemma StartWithin(frames: set<nat>, disk: map<nat, Bytes>, vas: set<nat>)
    ensures Within(Start(frames, disk), vas) && Start(frames, disk).slots.Keys == disk.Keys
    ensures Start(frames, disk).frames.Keys == frames
  {}

  lemma RoomInRun(frames: set<nat>, disk: map<nat, Bytes>, steps: seq<Action>, vas: set<nat>)
    requires FaultsWithin(steps, vas) && Run(Start(frames, disk), steps).Next?
    ensures var s := Run(Start(frames, disk), steps).world;
      |s.pages| <= |vas| && |s.slots| == |disk| && |frames| <= |s.frames|
  {
    hide Run, Within;
    RunWithin(frames, disk, steps, vas);
    var s := Run(Start(frames, disk), steps).world;
    WithinCard(s, vas);
    SubsetCard(frames, s.frames.Keys);
    assert |s.slots| == |s.slots.Keys| && |disk| == |disk.Keys| && |s.frames| == |s.frames.Keys|;
  }

  /** If the program touches no more pages than the disk has slots, then in no
      interleaving any assert fails but "Out of memory". */
  lemma {:induction false} RunsEndOutOfMemory(frames: set<nat>, disk: map<nat, Bytes>, steps: seq<Action>, vas: set<nat>)
    requires FaultsWithin(steps, vas) && |vas| <= |disk|
    ensures Run(Start(frames, disk), steps).Crash? ==> Run(Start(frames, disk), steps).why == OutOfMemory
  {
    hide Step, Sound, FaultsWithin;
    if steps != [] {
      var was := steps[..|steps| - 1];
      PrefixWithin(steps, vas);
      RunsEndOutOfMemory(frames, disk, was, vas);
      if Run(Start(frames, disk), was).Next? {
        var s := Run(Start(frames, disk), was).world;
        RoomInRun(frames, disk, was, vas);
        RunSound(frames, disk, was);
        SlotIsFound(s, Truth(s, was), steps[|steps| - 1]);
        CrashIff(s, Truth(s, was), steps[|steps| - 1]);
      }
    }
  }

  lemma PrefixWithin(steps: seq<Action>, vas: set<nat>)
    requires FaultsWithin(steps, vas) && steps != []
    ensures FaultsWithin(steps[..|steps| - 1], vas)
    ensures steps[|steps| - 1].FaultNew? ==> steps[|steps| - 1].va in vas
  {}

  // ----- when memory never runs out -----

  /** No search has counted down. */
  ghost predicate Unhurried(s: World) {
    forall j {:trigger s.jobs[j]} :: j in s.jobs && Searches(s.jobs[j]) ==>
      s.jobs[j].search.priority == PRIORITY
  }

  lemma StepUnhurried(s: World, a: Action)
    requires Unhurried(s) && !Plenty(s) && Step(s, a).Next?
    ensures Unhurried(Step(s, a).world)
  {
    hide Step, Plenty;
    var t := Step(s, a).world;
    forall j | j in t.jobs && Searches(t.jobs[j]) ensures t.jobs[j].search.priority == PRIORITY {
      StepFromBefore(s, a, j);
    }
  }

  lemma FewPages(s: World)
    requires 2 * |s.pages| <= |s.frames|
    ensures !Plenty(s)
  {
    var (a, b) := (OnList(s, Active), OnList(s, Inactive));
    SubsetCard(a + b, s.pages.Keys);
    assert |a + b| == |a| + |b| by { assert a !! b; }
    assert |s.pages| == |s.pages.Keys|;
  }

  lemma {:induction false} RunUnhurried(frames: set<nat>, disk: map<nat, Bytes>, steps: seq<Action>, vas: set<nat>)
    requires FaultsWithin(steps, vas) && 2 * |vas| <= |frames| && Run(Start(frames, disk), steps).Next?
    ensures Unhurried(Run(Start(frames, disk), steps).world)
  {
    hide Step, FaultsWithin;
    if steps != [] {
      var was := steps[..|steps| - 1];
      PrefixWithin(steps, vas);
      RunUnhurried(frames, disk, was, vas);
      RoomInRun(frames, disk, was, vas);
      FewPages(Run(Start(frames, disk), was).world);
      StepUnhurried(Run(Start(frames, disk), was).world, steps[|steps| - 1]);
    }
  }

  /** If moreover the pages it touches fit in half of DRAM, which is where a search
      starts to count down, then no assert fails at all. */
  lemma {:induction false} RunsNeverCrash(frames: set<nat>, disk: map<nat, Bytes>, steps: seq<Action>, vas: set<nat>)
    requires FaultsWithin(steps, vas) && |vas| <= |disk| && 2 * |vas| <= |frames|
    ensures !Run(Start(frames, disk), steps).Crash?
  {
    hide Step, Sound, FaultsWithin;
    if steps != [] {
      var (was, a) := (steps[..|steps| - 1], steps[|steps| - 1]);
      PrefixWithin(steps, vas);
      RunsNeverCrash(frames, disk, was, vas);
      RunsEndOutOfMemory(frames, disk, steps, vas);
      if Run(Start(frames, disk), was).Next? {
        var s := Run(Start(frames, disk), was).world;
        RunUnhurried(frames, disk, was, vas);
        RunSound(frames, disk, was);
        CrashIff(s, Truth(s, was), a);
        assert !Exhausted(s, a);
      }
    }
  }

  /** Jobs that have a frame for which there is no page yet, or no longer. */
  function Carriers(s: World): set<nat> {
    set j | j in s.jobs && (s.jobs[j].HasFrame? || s.jobs[j].Spare?)
  }

  /** The page that a frame in use is for. */
  ghost function PageFor(s: World, f: nat): Option<nat>
    requires f in s.frames
  {
    match s.frames[f]
    case OfPage(va) => Some(va)
    case OfJob(j) => if j in s.jobs then Holds(s.jobs[j]) else None
    case Free => None
  }

  lemma OnePageEach(s: World, truth: map<nat, Bytes>, f: nat, g: nat)
    requires Sound(s, truth) && f in s.frames && g in s.frames && PageFor(s, f).Some?
    ensures PageFor(s, f).value in s.pages
    ensures PageFor(s, f) == PageFor(s, g) ==> f == g
  {
    var va := PageFor(s, f).value;
    assert FrameOk(s, f) && FrameOk(s, g);
    if s.frames[f].OfJob? { assert JobOk(s, s.frames[f].j); }
    assert PageOk(s, truth, va);
    if s.frames[g].OfJob? && s.frames[g].j in s.jobs { assert JobOk(s, s.frames[g].j); }
  }

  lemma CarrierOf(s: World, truth: map<nat, Bytes>, f: nat)
    requires Sound(s, truth) && f in s.frames && !s.frames[f].Free? && PageFor(s, f).None?
    ensures s.frames[f].OfJob? && s.frames[f].j in Carriers(s) && FrameOf(s.jobs[s.frames[f].j]) == Some(f)
  {
    assert FrameOk(s, f);
  }

  lemma ForPagesCard(s: World, truth: map<nat, Bytes>, xs: set<nat>)
    requires Sound(s, truth) && forall f :: f in xs ==> f in s.frames && PageFor(s, f).Some?
    ensures |xs| <= |s.pages|
  {
    hide Sound, PageFor;
    var pages := map f | f in xs :: PageFor(s, f).value;
    forall f | f in xs ensures pages[f] in s.pages { OnePageEach(s, truth, f, f); }
    forall f, g | f in xs && g in xs && pages[f] == pages[g] ensures f == g { OnePageEach(s, truth, f, g); }
    InjectionCard(xs, s.pages.Keys, pages);
    assert |s.pages| == |s.pages.Keys|;
  }

  lemma CarriersCard(s: World, truth: map<nat, Bytes>, xs: set<nat>)
    requires Sound(s, truth) && forall f :: f in xs ==> f in s.frames && !s.frames[f].Free? && PageFor(s, f).None?
    ensures |xs| <= |Carriers(s)|
  {
    hide Sound, PageFor;
    var jobs := map f | f in xs && s.frames[f].OfJob? :: s.frames[f].j;
    forall f | f in xs ensures f in jobs && jobs[f] in Carriers(s) { CarrierOf(s, truth, f); }
    forall f, g | f in xs && g in xs && jobs[f] == jobs[g] ensures f == g {
      CarrierOf(s, truth, f);
      CarrierOf(s, truth, g);
    }
    InjectionCard(xs, Carriers(s), jobs);
  }

  /** A frame is free while the pages and the carriers are fewer than the frames. */
  lemma FrameIsLeft(s: World, truth: map<nat, Bytes>)
    requires Sound(s, truth) && |s.pages| + |Carriers(s)| < |s.frames|
    ensures exists f :: f in s.frames && s.frames[f].Free?
  {
    hide Sound, PageFor, Carriers;
    assert |s.frames| == |s.frames.Keys|;
    if forall f :: f in s.frames ==> !s.frames[f].Free? {
      var forPages := set f | f in s.frames && PageFor(s, f).Some?;
      ForPagesCard(s, truth, forPages);
      CarriersCard(s, truth, s.frames.Keys - forPages);
      SplitCard(s.frames.Keys, forPages);
    }
  }

  /** No search has missed a frame. */
  ghost predicate Lucky(s: World) {
    forall j {:trigger s.jobs[j]} :: j in s.jobs && Searches(s.jobs[j]) ==> s.jobs[j].search.stage == AtFree
  }

  lemma StepLucky(s: World, a: Action)
    requires Lucky(s) && Step(s, a).Next? && exists f :: f in s.frames && s.frames[f].Free?
    ensures Lucky(Step(s, a).world)
  {
    assert !a.MissFree?;
    hide Step;
    var t := Step(s, a).world;
    forall j | j in t.jobs && Searches(t.jobs[j]) ensures t.jobs[j].search.stage == AtFree {
      StepFromBefore(s, a, j);
    }
  }

  /** Never more than `m` jobs carry a frame without a page. */
  ghost predicate FewCarry(frames: set<nat>, disk: map<nat, Bytes>, steps: seq<Action>, m: nat) {
    forall n :: 0 <= n <= |steps| && Run(Start(frames, disk), steps[..n]).Next? ==>
      |Carriers(Run(Start(frames, disk), steps[..n]).world)| <= m
  }

  lemma FewPrefix(frames: set<nat>, disk: map<nat, Bytes>, steps: seq<Action>, m: nat)
    requires FewCarry(frames, disk, steps, m)
    ensures steps != [] ==> FewCarry(frames, disk, steps[..|steps| - 1], m)
    ensures Run(Start(frames, disk), steps).Next? ==> |Carriers(Run(Start(frames, disk), steps).world)| <= m
  {
    hide Run, Carriers;
    assert steps[..|steps|] == steps;
    if steps != [] {
      var was := steps[..|steps| - 1];
      forall n | 0 <= n <= |was| ensures was[..n] == steps[..n] {}
    }
  }

  lemma LeftInRun(frames: set<nat>, disk: map<nat, Bytes>, steps: seq<Action>, vas: set<nat>, m: nat)
    requires FaultsWithin(steps, vas) && FewCarry(frames, disk, steps, m) && |vas| + m < |frames|
    requires Run(Start(frames, disk), steps).Next?
    ensures var s := Run(Start(frames, disk), steps).world; exists f :: f in s.frames && s.frames[f].Free?
  {
    hide Run, Sound, Carriers, FaultsWithin, FewCarry;
    RunSound(frames, disk, steps);
    RoomInRun(frames, disk, steps, vas);
    FewPrefix(frames, disk, steps, m);
    FrameIsLeft(Run(Start(frames, disk), steps).world, Truth(Run(Start(frames, disk), steps).world, steps));
  }

  lemma {:induction false} RunLucky(frames: set<nat>, disk: map<nat, Bytes>, steps: seq<Action>, vas: set<nat>, m: nat)
    requires FaultsWithin(steps, vas) && FewCarry(frames, disk, steps, m) && |vas| + m < |frames|
    requires Run(Start(frames, disk), steps).Next?
    ensures Lucky(Run(Start(frames, disk), steps).world)
  {
    hide Step, FaultsWithin, FewCarry;
    if steps != [] {
      var was := steps[..|steps| - 1];
      PrefixWithin(steps, vas);
      FewPrefix(frames, disk, steps, m);
      RunLucky(frames, disk, was, vas, m);
      LeftInRun(frames, disk, was, vas, m);
      StepLucky(Run(Start(frames, disk), was).world, steps[|steps| - 1]);
    }
  }

  /** Nor does one fail, whatever the reclaims do, if there are more frames than pages
      and jobs that carry a frame without a page at the same time: a frame is always free. */
  lemma {:induction false} RunsFindFrames(frames: set<nat>, disk: map<nat, Bytes>, steps: seq<Action>, vas: set<nat>, m: nat)
    requires FaultsWithin(steps, vas) && |vas| <= |disk|
    requires FewCarry(frames, disk, steps, m) && |vas| + m < |frames|
    ensures !Run(Start(frames, disk), steps).Crash?
  {
    hide Step, Sound, FaultsWithin, FewCarry;
    if steps != [] {
      var (was, a) := (steps[..|steps| - 1], steps[|steps| - 1]);
      PrefixWithin(steps, vas);
      FewPrefix(frames, disk, steps, m);
      RunsFindFrames(frames, disk, was, vas, m);
      RunsEndOutOfMemory(frames, disk, steps, vas);
      if Run(Start(frames, disk), was).Next? {
        var s := Run(Start(frames, disk), was).world;
        RunLucky(frames, disk, was, vas, m);
        RunSound(frames, disk, was);
        CrashIff(s, Truth(s, was), a);
        assert !Exhausted(s, a);
      }
    }
  }

  lemma WithinCard(s: World, vas: set<nat>)
    requires Within(s, vas)
    ensures |s.pages| <= |vas|
  {
    InjectionCard(s.pages.Keys, vas, map va | va in s.pages :: va);
    assert |s.pages| == |s.pages.Keys|;
  }

  // ----- what the invariant says -----

  /** No two jobs work on one page, or have one frame or one slot. */
  lemma JobsAreApart(s: World, truth: map<nat, Bytes>, j: nat, k: nat)
    requires Sound(s, truth) && j in s.jobs && k in s.jobs && j != k
    ensures Holds(s.jobs[j]).Some? ==> Holds(s.jobs[j]) != Holds(s.jobs[k])
    ensures FrameOf(s.jobs[j]).Some? ==> FrameOf(s.jobs[j]) != FrameOf(s.jobs[k])
    ensures SlotOf(s.jobs[j]).Some? ==> SlotOf(s.jobs[j]) != SlotOf(s.jobs[k])
  {
    assert JobOk(s, j) && JobOk(s, k);
  }

  /** The flags and lists that are tested before a page is taken keep two jobs from
      taking the same page. */
  lemma TakenAtRest(s: World, truth: map<nat, Bytes>, a: Action, k: nat)
    requires Sound(s, truth) && Step(s, a).Next? && Takes(a)
    requires k in s.jobs
    ensures Holds(s.jobs[k]) != Some(a.va)
    ensures Holds(Step(s, a).world.jobs[Taker(a)]) == Some(a.va)
  {
    hide TurnOf, Plenty, Looks;
    assert PageOk(s, truth, a.va) && JobOk(s, k);
  }

  /** Steps by which a job takes a page that is tracked. */
  predicate Takes(a: Action) {
    a.Claim? || a.Pick? || a.PickFor? || a.ScanTake? || a.SweepTake?
  }

  function Taker(a: Action): nat
    requires Takes(a)
  {
    if a.PickFor? || a.SweepTake? then a.k else a.j
  }

  /** The frame that holds a mapped page. */
  ghost function FrameFor(s: World, va: nat): nat
    requires va in s.pages
  {
    var p := s.pages[va];
    if p.spot.InFrame? then p.spot.f
    else if p.holder.Some? && p.holder.value in s.jobs && FrameOf(s.jobs[p.holder.value]).Some?
    then FrameOf(s.jobs[p.holder.value]).value
    else 0
  }

  lemma OneFrameEach(s: World, truth: map<nat, Bytes>, va: nat, wa: nat)
    requires Sound(s, truth) && va in s.ram && wa in s.ram
    ensures FrameFor(s, va) in s.frames && !s.frames[FrameFor(s, va)].Free?
    ensures FrameFor(s, va) == FrameFor(s, wa) ==> va == wa
  {
    assert PageOk(s, truth, va) && PageOk(s, truth, wa);
    if s.pages[va].holder.Some? { assert JobOk(s, s.pages[va].holder.value); }
    if s.pages[wa].holder.Some? { assert JobOk(s, s.pages[wa].holder.value); }
  }

  lemma MappedCard(s: World, truth: map<nat, Bytes>, taken: set<nat>)
    requires Sound(s, truth)
    requires forall f :: f in s.frames && !s.frames[f].Free? ==> f in taken
    ensures |s.ram.Keys| <= |taken|
  {
    hide Sound, FrameFor;
    SoundPages(s, truth);
    var f := map va | va in s.ram.Keys :: FrameFor(s, va);
    forall va | va in s.ram.Keys ensures f[va] in taken {
      OneFrameEach(s, truth, va, va);
    }
    forall va, wa | va in s.ram.Keys && wa in s.ram.Keys && f[va] == f[wa] ensures va == wa {
      OneFrameEach(s, truth, va, wa);
    }
    InjectionCard(s.ram.Keys, taken, f);
  }

  lemma SoundPages(s: World, truth: map<nat, Bytes>)
    requires Sound(s, truth)
    ensures s.ram.Keys <= s.pages.Keys
  {}

  lemma SplitCard(xs: set<nat>, ys: set<nat>)
    requires ys <= xs
    ensures |xs| == |ys| + |xs - ys|
  {
    assert xs == ys + (xs - ys);
  }

  function FreeFrames(s: World): set<nat> {
    set f | f in s.frames && s.frames[f].Free?
  }

  /** At every moment the mapped pages and the free frames together fit in DRAM. */
  lemma MappedFits(s: World, truth: map<nat, Bytes>)
    requires Sound(s, truth)
    ensures |s.ram| + |FreeFrames(s)| <= |s.frames|
  {
    hide Sound;
    var free := FreeFrames(s);
    var taken := s.frames.Keys - free;
    MappedCard(s, truth, taken);
    SplitCard(s.frames.Keys, free);
    assert |s.ram| == |s.ram.Keys| && |s.frames| == |s.frames.Keys|;
  }
}
