/** What keeps the protocol going: every transition ends, and every search does. */
module Progress {
  import opened Machine
  import opened SwapIn
  import opened Protocol
  import opened Ownership
  import opened Steps
  import opened Interleaving
  import opened Pairing
  import Prefetching
  import SC = SecondChance

  // ----- every transition ends -----

  /** The steps that a job still takes at most, apart from its search for a frame. */
  function Rank(job: Job): nat {
    match job
    case WantFrame(_, _) => 5
    case HasFrame(_, _) => 4
    case Adding(_) => 3
    case Filled(_) => 2
    case Cleared(_) => 1
    case Claimed(_, _) => 6
    case Detached(_, _) => 5
    case Reading(_, _, frame, buffer, _) => 2 + (if frame.Some? then 0 else 1) + (if buffer.Some? then 0 else 1)
    case Copied(_, _) => 1
    case Picked(_, _) => 13
    case Marked(_, _) => 12
    case Guarded(_, _) => 11
    case Sampled(_, _, _) => 10
    case WithSlot(_, _, _, _) => 9
    case Written(_, _, _) => 8
    case Gone(_, _, _) => 7
    case Moved(_, _, _) => 6
    case Flagged(_, frame, _) => 4 + (if frame.Some? then 1 else 0)
    case Listed(_, frame, _) => 2 + (if frame.Some? then 1 else 0)
    case Spare(_, _) => 1
    case Scanning(_, _) => 2
    case Seen(_, _, _) => 1
  }

  predicate SameButSearch(x: Job, y: Job) {
    x == y || (Searches(x) && Searches(y) && y == x.(search := y.search))
  }

  /** Steps of job `j`, its search apart, and the step that hands it a frame. */
  predicate Gains(s: World, a: Action, j: nat) {
    || (!a.Load? && !a.Store? && !a.PickFor? && !a.SweepTake? && !Misses(a) && a.j == j)
    || (a.HandOver? && a.j in s.jobs && WhoseOf(s.jobs[a.j]) == Some(j))
  }

  /** Job `j` comes nearer to its end, or only its search goes on, or it rests. */
  ghost predicate Advanced(s: World, a: Action, t: World, j: nat)
    requires j in s.jobs
  {
    if Gains(s, a, j) then j !in t.jobs || Rank(t.jobs[j]) < Rank(s.jobs[j])
    else j in t.jobs && SameButSearch(s.jobs[j], t.jobs[j])
  }

  lemma FaultAdvances(s: World, a: Action, j: nat)
    requires TouchStep(s, a).Next? && j in s.jobs && (a.FaultNew? || a.CheckNew?)
    ensures Advanced(s, a, TouchStep(s, a).world, j)
  {
    hide DoLoad, DoStore, DoFillZero, DoUnmark, DoTrack;
  }

  lemma TouchAdvances(s: World, a: Action, j: nat)
    requires TouchStep(s, a).Next? && j in s.jobs
    ensures Advanced(s, a, TouchStep(s, a).world, j)
  {
    hide DoFaultNew, DoCheckNew;
    if a.FaultNew? || a.CheckNew? { FaultAdvances(s, a, j); }
  }

  lemma SearchAdvances(s: World, a: Action, j: nat)
    requires SearchStep(s, a).Next? && j in s.jobs
    ensures Advanced(s, a, SearchStep(s, a).world, j)
  {
    hide Plenty, Looks, SearchAfter, IsFree;
    if a.TakeFrame? {
      LooksSupplied(s, a.j, a.f);
    } else {
      SearchIsSet(s, a);
      hide SearchStep;
    }
  }

  lemma BringAdvances(s: World, a: Action, j: nat)
    requires BringStep(s, a).Next? && j in s.jobs
    ensures Advanced(s, a, BringStep(s, a).world, j)
  {}

  lemma SlotAdvances(s: World, a: Action, j: nat)
    requires WriteStep(s, a).Next? && j in s.jobs && (a.TakeSlot? || a.WriteOut? || a.Zap?)
    ensures Advanced(s, a, WriteStep(s, a).world, j)
  {
    hide DoPick, DoMark, DoGuard, DoSample;
  }

  lemma PickAdvances(s: World, a: Action, j: nat)
    requires WriteStep(s, a).Next? && j in s.jobs && (a.Pick? || a.PickFor?)
    ensures Advanced(s, a, WriteStep(s, a).world, j)
  {
    hide DoMark, DoGuard, DoSample, DoTakeSlot, DoWriteOut, DoZap;
  }

  lemma WriteAdvances(s: World, a: Action, j: nat)
    requires WriteStep(s, a).Next? && j in s.jobs
    ensures Advanced(s, a, WriteStep(s, a).world, j)
  {
    hide DoTakeSlot, DoWriteOut, DoZap, DoPick, DoPickFor;
    if a.TakeSlot? || a.WriteOut? || a.Zap? { SlotAdvances(s, a, j); }
    else if a.Pick? || a.PickFor? { PickAdvances(s, a, j); }
  }

  lemma RetireAdvances(s: World, a: Action, j: nat)
    requires RetireStep(s, a).Next? && j in s.jobs
    ensures Advanced(s, a, RetireStep(s, a).world, j)
  {}

  lemma HandOverAdvances(s: World, i: nat, j: nat)
    requires DoHandOver(s, i).Next? && j in s.jobs
    ensures Advanced(s, HandOver(i), DoHandOver(s, i).world, j)
  {}

  lemma ReleaseAdvances(s: World, i: nat, j: nat)
    requires DoRelease(s, i).Next? && j in s.jobs
    ensures Advanced(s, Release(i), DoRelease(s, i).world, j)
  {}

  lemma FreeFrameAdvances(s: World, i: nat, j: nat)
    requires DoFreeFrame(s, i).Next? && j in s.jobs
    ensures Advanced(s, FreeFrame(i), DoFreeFrame(s, i).world, j)
  {}

  lemma ReturnAdvances(s: World, a: Action, j: nat)
    requires ReturnStep(s, a).Next? && j in s.jobs
    ensures Advanced(s, a, ReturnStep(s, a).world, j)
  {
    hide DoHandOver, DoRelease, DoFreeFrame, Advanced;
    if a.HandOver? { HandOverAdvances(s, a.j, j); }
    else if a.Release? { ReleaseAdvances(s, a.j, j); }
    else { FreeFrameAdvances(s, a.j, j); }
  }

  lemma SweepTakeAdvances(s: World, i: nat, k: nat, va: nat, j: nat)
    requires DoSweepTake(s, i, k, va).Next? && j in s.jobs
    ensures Advanced(s, SweepTake(i, k, va), DoSweepTake(s, i, k, va).world, j)
  {
    hide TurnOf;
  }

  lemma ScanAdvances(s: World, a: Action, j: nat)
    requires ScanStep(s, a).Next? && j in s.jobs
    ensures Advanced(s, a, ScanStep(s, a).world, j)
  {
    hide DoSweepTake;
    if a.SweepTake? { SweepTakeAdvances(s, a.j, a.k, a.va, j); }
  }

  /** Each step of a job, its search apart, brings it nearer to its end, and no step
      of another job touches more of it than its search. */
  lemma StepsEnd(s: World, a: Action, j: nat)
    requires Step(s, a).Next? && j in s.jobs
    ensures Advanced(s, a, Step(s, a).world, j)
  {
    hide Advanced, TouchStep, SearchStep, BringStep, WriteStep, RetireStep, ReturnStep, ScanStep;
    match KindOf(a)
    case Touching => TouchAdvances(s, a, j);
    case Searching => SearchAdvances(s, a, j);
    case Bringing => BringAdvances(s, a, j);
    case Writing => WriteAdvances(s, a, j);
    case Retiring => RetireAdvances(s, a, j);
    case Returning => ReturnAdvances(s, a, j);
    case Scans => ScanAdvances(s, a, j);
  }

  // ----- a job that need not wait can step -----

  /** The job waits for a frame, for itself or for another page of its batch. */
  predicate Waits(s: World, j: nat)
    requires j in s.jobs
  {
    var job := s.jobs[j];
    job.WantFrame? || (job.Reading? && job.buffer.Some? && !BatchReady(s, job.batch))
  }

  /** What a step leaves open: the pages at the end of the lists, the frame and the slot
      at the end of the free lists, whether an accessed page is promoted, the bits with
      which a page is mapped, whether a search finds a list being shrunk, and whether a
      worker returns a frame before it lists the page. */
  datatype Chance = Chance(inactive: nat, active: nat, victim: nat, frame: nat, slot: nat, promotes: bool,
                           bits: Bits, skips: bool, early: bool)

  /** The step leaves nothing that `c` settles to the one who plans it. */
  ghost predicate Abides(s: World, a: Action, c: Chance) {
    match a
    case TakeFrame(_, f) => IsFree(s.frames, c.frame) ==> f == c.frame
    case Reclaim(_, skip) => skip == (c.skips && Shrinking(s))
    case SweepTake(_, _, va) =>
      && (va in OnList(s, Inactive) && c.inactive in OnList(s, Inactive) ==> va == c.inactive)
      && (va in OnList(s, Active) && c.active in OnList(s, Active) ==> va == c.active)
    case PickFor(_, _, va) => c.victim in OnList(s, Eviction) ==> va == c.victim
    case FillZero(_, bits) => bits == c.bits
    case CopyIn(_, bits) => bits == c.bits
    case TakeSlot(j, d) => Slotless(s, j) && IsFree(s.slots, c.slot) ==> d == c.slot
    case List(j) => j in s.jobs && Returns(s.jobs[j]) ==> !c.early
    case FreeFrame(j) => j in s.jobs && s.jobs[j].Flagged? ==> c.early
    case ScanPut(j, to) =>
      j in s.jobs && s.jobs[j].Seen? && s.jobs[j].how == Hot ==> to == if c.promotes then Active else Inactive
    case _ => true
  }

  /** The page is evicted for the first time since it was brought in. */
  predicate Slotless(s: World, j: nat) {
    j in s.jobs && s.jobs[j].Sampled? && s.jobs[j].va in s.pages && s.pages[s.jobs[j].va].reserve.None?
  }

  /** A worker has the frame still. */
  predicate Returns(job: Job) {
    (job.Flagged? || job.Listed?) && job.frame.Some? && job.whose.None?
  }

  /** The reserve of the page, or a free slot if there is one. */
  ghost function SlotToTake(s: World, job: Job, c: Chance): nat {
    if job.Sampled? && job.va in s.pages && s.pages[job.va].reserve.Some? then s.pages[job.va].reserve.value
    else if IsFree(s.slots, c.slot) then c.slot
    else if free: nat :| free in s.slots && s.slots[free].Free? then free
    else 0
  }

  /** A step by which a job that exists gets on: not one of the program, not one of a
      search, and not the start of a job. */
  predicate Advances(a: Action) {
    !a.Load? && !a.Store? && !a.FaultNew? && !a.Claim? && !a.Pick? && !a.ScanTake?
    && KindOf(a) != Searching && !a.PickFor? && !a.SweepTake?
  }

  /** What a job does next. */
  ghost function NextOf(s: World, j: nat, c: Chance): (a: Action)
    requires j in s.jobs && !Waits(s, j)
    ensures Advances(a) && a.j == j && Abides(s, a, c)
  {
    match s.jobs[j]
    case HasFrame(_, _) => CheckNew(j)
    case Adding(_) => FillZero(j, c.bits)
    case Filled(_) => Unmark(j)
    case Cleared(_) => Track(j)
    case Claimed(_, _) => Unlist(j)
    case Detached(_, _) => Submit(j)
    case Reading(_, _, _, buffer, _) => if buffer.None? then Complete(j) else CopyIn(j, c.bits)
    case Copied(_, _) => Publish(j)
    case Picked(_, _) => Mark(j)
    case Marked(_, _) => Guard(j)
    case Guarded(_, _) => Sample(j)
    case Sampled(_, _, _) => TakeSlot(j, SlotToTake(s, s.jobs[j], c))
    case WithSlot(_, _, _, _) => WriteOut(j)
    case Written(_, _, _) => Zap(j)
    case Gone(_, _, _) => Move(j)
    case Moved(_, _, _) => Flag(j)
    case Flagged(_, _, _) => if Returns(s.jobs[j]) && c.early then FreeFrame(j) else List(j)
    case Listed(_, _, _) => if Returns(s.jobs[j]) then FreeFrame(j) else Release(j)
    case Spare(_, _) => HandOver(j)
    case Scanning(_, _) => Look(j)
    case Seen(_, how, _) =>
      ScanPut(j, match how case WasActive => Inactive case Cold => Eviction case Hot => if c.promotes then Active else Inactive)
  }

  /** A frame kept for a search can be handed to it. */
  lemma SpareWanted(s: World, j: nat)
    requires Matched(s) && j in s.jobs && s.jobs[j].Spare?
    ensures DoHandOver(s, j).Next?
  {
    assert HelperOk(s, j);
  }

  lemma NextNotBlocked(s: World, j: nat, c: Chance)
    requires Matched(s) && j in s.jobs && !Waits(s, j)
    ensures Step(s, NextOf(s, j, c)) != Blocked
  {
    hide BatchReady, Plenty, Looks, Matched, DoHandOver;
    if s.jobs[j].Spare? { SpareWanted(s, j); }
  }

  /** A job that does not wait for a frame can take its next step, whatever chance: it
      waits for no other page and for no lock that another job keeps. */
  lemma JobCanStep(s: World, truth: map<nat, Bytes>, j: nat, c: Chance)
    requires Sound(s, truth) && Matched(s) && |s.pages| <= |s.slots| && j in s.jobs && !Waits(s, j)
    ensures Step(s, NextOf(s, j, c)).Next?
  {
    hide Step, NextOf, Sound, Waits, Matched;
    NextNotBlocked(s, j, c);
    SlotIsFound(s, truth, NextOf(s, j, c));
    CrashIff(s, truth, NextOf(s, j, c));
    EveryWhy(Step(s, NextOf(s, j, c)));
  }

  lemma EveryWhy(r: Outcome)
    ensures r.Crash? ==> r == Crash(NoDiskPage) || r == Crash(OutOfMemory) || r == Crash(Broken)
  {
    if r.Crash? {
      match r.why
      case NoDiskPage =>
      case OutOfMemory =>
      case Broken =>
    }
  }

  // ----- frames held by batches that are short of frames -----

  ghost predicate ShortOfFrames(s: World, batch: nat) {
    exists k {:trigger s.jobs[k]} :: k in s.jobs && InBatch(s.jobs[k], batch) && Starves(s.jobs[k])
  }

  /** Jobs that keep a frame while another page of their batch has none yet. */
  ghost function Holding(s: World): set<nat> {
    set j | j in s.jobs && s.jobs[j].Reading? && s.jobs[j].frame.Some? && ShortOfFrames(s, s.jobs[j].batch)
  }

  ghost function BatchOf(s: World, batch: nat): set<nat> {
    set j | j in s.jobs && InBatch(s.jobs[j], batch)
  }

  ghost function HoldingIn(s: World, batches: set<nat>): set<nat> {
    HoldingReads(s);
    set j | j in Holding(s) && s.jobs[j].batch in batches
  }

  lemma OneBatchHolds(s: World, batch: nat, size: nat)
    requires |BatchOf(s, batch)| <= size && size > 0
    ensures |HoldingIn(s, {batch})| <= size - 1
  {
    var h := HoldingIn(s, {batch});
    if j :| j in h {
      var k :| k in s.jobs && InBatch(s.jobs[k], batch) && Starves(s.jobs[k]);
      SubsetCard(h, BatchOf(s, batch) - {k});
    }
  }

  /** Threads that read batches of at most `size` pages keep at most `size - 1`
      frames each while they look for more. */
  lemma {:induction false} BatchesHold(s: World, batches: set<nat>, size: nat)
    requires size > 0 && forall b :: b in batches ==> |BatchOf(s, b)| <= size
    ensures |HoldingIn(s, batches)| <= (size - 1) * |batches|
  {
    hide Holding, HoldingIn;
    if batches == {} {
      NoBatchHolds(s);
    } else {
      var b :| b in batches;
      BatchesHold(s, batches - {b}, size);
      OneBatchHolds(s, b, size);
      HoldingSplits(s, batches, b);
      UnionCard(HoldingIn(s, batches - {b}), HoldingIn(s, {b}));
      Distribute(size - 1, |batches|);
    }
  }

  lemma NoBatchHolds(s: World)
    ensures HoldingIn(s, {}) == {}
  {}

  lemma HoldingSplits(s: World, batches: set<nat>, b: nat)
    requires b in batches
    ensures HoldingIn(s, batches) == HoldingIn(s, batches - {b}) + HoldingIn(s, {b})
  {
    hide Holding;
    HoldingReads(s);
  }

  lemma HoldingReads(s: World)
    ensures forall j :: j in Holding(s) ==> j in s.jobs && s.jobs[j].Reading?
  {}

  lemma UnionCard(xs: set<nat>, ys: set<nat>)
    ensures |xs + ys| <= |xs| + |ys|
  {}

  lemma Distribute(k: nat, n: nat)
    requires n > 0
    ensures k * (n - 1) + k == k * n
  {}

}
