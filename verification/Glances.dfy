/** Second chances in whole runs of the protocol: what a scan saw when it last looked at
    a page decides where the page is now. */
module Glances {
  import opened Machine
  import opened SwapIn
  import opened Protocol
  import opened Ownership
  import opened Steps
  import opened Interleaving
  import opened Schedules
  import opened Exhaustion

  // ----- one step -----

  /** A scan looks at the page `va`. */
  predicate LooksOver(s: World, a: Action, va: nat) {
    a.Look? && a.j in s.jobs && s.jobs[a.j].Scanning? && s.jobs[a.j].va == va
  }

  /** The page is unmapped, or mapped anew: its accessed bit starts again. */
  predicate Remaps(s: World, a: Action, va: nat) {
    (a.Zap? || a.FillZero? || a.CopyIn?) && a.j in s.jobs && Holds(s.jobs[a.j]) == Some(va)
  }

  predicate Uses(a: Action, va: nat) {
    (a.Load? || a.Store?) && a.va == va
  }

  /** A job that evicts its page, or has seen it for the scan that will. */
  predicate Leaving(job: Job) {
    match job
    case Picked(_, _) => true
    case Marked(_, _) => true
    case Guarded(_, _) => true
    case Sampled(_, _, _) => true
    case WithSlot(_, _, _, _) => true
    case Written(_, _, _) => true
    case Gone(_, _, _) => true
    case Moved(_, _, _) => true
    case Flagged(_, _, _) => true
    case Listed(_, _, _) => true
    case Seen(_, how, _) => how == Cold
    case _ => false
  }

  /** The page awaits eviction, is being evicted, or is on disk. */
  predicate IsLeaving(s: World, va: nat) {
    && va in s.pages
    && (s.pages[va].list == Some(Eviction) || s.pages[va].swappedOut
        || (s.pages[va].holder.Some? && s.pages[va].holder.value in s.jobs
            && Leaving(s.jobs[s.pages[va].holder.value])))
  }

  /** The page is on the active list, on its way there, or on its way to be demoted. */
  predicate IsKept(s: World, va: nat) {
    && va in s.pages
    && (s.pages[va].list == Some(Active)
        || (s.pages[va].holder.Some? && s.pages[va].holder.value in s.jobs
            && s.jobs[s.pages[va].holder.value].Seen? && s.jobs[s.pages[va].holder.value].how != Cold))
  }

  /** A look decides by the accessed bit; no other step changes what is decided. */
  predicate Decides(s: World, a: Action, t: World, va: nat) {
    if LooksOver(s, a, va) then (IsLeaving(t, va) ==> va !in s.accessed) && (IsKept(t, va) ==> va in s.accessed)
    else (IsLeaving(t, va) ==> IsLeaving(s, va)) && (IsKept(t, va) ==> IsKept(s, va))
  }

  /** The job that the step `a` goes on with, and the page `va`, name what they hold and
      who holds it. */
  ghost predicate Held(s: World, a: Action, va: nat) {
    && (!a.Load? && !a.Store? && a.j in s.jobs && Holds(s.jobs[a.j]).Some? ==>
          var va := Holds(s.jobs[a.j]).value;
          && va in s.pages && s.pages[va].holder == Some(a.j)
          && (s.jobs[a.j].Scanning? ==> s.pages[va].list == None && !s.pages[va].swappedOut))
    && (va in s.pages && s.pages[va].holder.Some? ==>
          s.pages[va].holder.value in s.jobs && Holds(s.jobs[s.pages[va].holder.value]) == Some(va))
  }

  lemma SoundHeld(s: World, truth: map<nat, Bytes>, a: Action, va: nat)
    requires Sound(s, truth)
    ensures Held(s, a, va)
  {
    hide PageOk, JobOk, Rests, Suits;
    if !a.Load? && !a.Store? && a.j in s.jobs {
      assert JobOk(s, a.j);
      if Holds(s.jobs[a.j]).Some? {
        JobHeld(s, truth, a.j);
      }
    }
    if va in s.pages && s.pages[va].holder.Some? {
      assert PageOk(s, truth, va);
      PageHeld(s, truth, va);
    }
  }

  lemma PageHeld(s: World, truth: map<nat, Bytes>, va: nat)
    requires va in s.pages && PageOk(s, truth, va) && s.pages[va].holder.Some?
    ensures s.pages[va].holder.value in s.jobs && Holds(s.jobs[s.pages[va].holder.value]) == Some(va)
  {
    hide Rests, Suits;
  }

  lemma JobHeld(s: World, truth: map<nat, Bytes>, j: nat)
    requires Sound(s, truth) && j in s.jobs && Holds(s.jobs[j]).Some?
    ensures var va := Holds(s.jobs[j]).value;
      && va in s.pages && s.pages[va].holder == Some(j)
      && (s.jobs[j].Scanning? ==> s.pages[va].list == None && !s.pages[va].swappedOut)
  {
    hide FrameOk, SlotOk, Rests;
    assert JobOk(s, j) && PageOk(s, truth, Holds(s.jobs[j]).value);
  }

  /** What is decided of the page `va` is the same in both worlds. */
  predicate Undecided(s: World, t: World, va: nat) {
    IsLeaving(t, va) == IsLeaving(s, va) && IsKept(t, va) == IsKept(s, va)
  }

  lemma SetSearchSame(s: World, j: nat, search: Search, va: nat)
    requires j in s.jobs && Searches(s.jobs[j])
    ensures Undecided(s, SetSearch(s, j, search), va)
  {}

  lemma SupplySame(s: World, j: nat, f: nat, va: nat)
    requires j in s.jobs && Supplied(s.jobs[j], f).Some?
    ensures Undecided(s, Supply(s, j, f), va)
  {}

  lemma DroppedSame(s: World, j: nat, va: nat)
    requires j in s.jobs && s.jobs[j].Spare?
    ensures Undecided(s, Dropped(s, j), va)
  {}

  lemma TellSame(s: World, whose: Option<nat>, j: nat, to: Queue, va: nat)
    ensures Undecided(s, Tell(s, whose, j, to), va)
  {
    hide Undecided, SetSearch, Counted;
    if Tell(s, whose, j, to) != s {
      var Search(p, stage) := s.jobs[whose.value].search;
      SetSearchSame(s, whose.value, Search(p, AtScan(Counted(stage.sweep, to), None)), va);
    } else {
      Itself(s, va);
    }
  }

  lemma Itself(s: World, va: nat)
    ensures Undecided(s, s, va)
  {}

  lemma TouchDecides(s: World, a: Action, va: nat)
    requires Held(s, a, va) && TouchStep(s, a).Next? && !a.Look?
    ensures Decides(s, a, TouchStep(s, a).world, va)
  {
    hide DoFillZero, DoUnmark, DoTrack;
    if a.FillZero? || a.Unmark? || a.Track? { FillDecides(s, a, va); }
  }

  lemma FillDecides(s: World, a: Action, va: nat)
    requires Held(s, a, va) && TouchStep(s, a).Next? && (a.FillZero? || a.Unmark? || a.Track?)
    ensures Decides(s, a, TouchStep(s, a).world, va)
  {
    hide DoLoad, DoStore, DoFaultNew, DoCheckNew;
  }

  lemma SearchDecides(s: World, a: Action, va: nat)
    requires SearchStep(s, a).Next?
    ensures Decides(s, a, SearchStep(s, a).world, va)
  {
    hide Plenty, Looks, StartSweep, TurnOf, Supply, SetSearch, IsLeaving, IsKept, IsFree;
    if a.TakeFrame? {
      LooksSupplied(s, a.j, a.f);
      SupplySame(s, a.j, a.f, va);
    } else {
      SearchIsSet(s, a);
      SetSearchSame(s, a.j, SearchAfter(s, a), va);
    }
  }

  lemma BringDecides(s: World, a: Action, va: nat)
    requires Held(s, a, va) && BringStep(s, a).Next?
    ensures Decides(s, a, BringStep(s, a).world, va)
  {
    hide DoClaim, DoUnlist, DoSubmit;
    if a.Claim? || a.Unlist? || a.Submit? { ClaimDecides(s, a, va); }
    hide BatchReady;
  }

  lemma ClaimDecides(s: World, a: Action, va: nat)
    requires Held(s, a, va) && BringStep(s, a).Next? && (a.Claim? || a.Unlist? || a.Submit?)
    ensures Decides(s, a, BringStep(s, a).world, va)
  {
    hide DoComplete, DoCopyIn, DoPublish;
  }

  lemma PickDecides(s: World, j: nat, v: nat, whose: Option<nat>, va: nat)
    requires Held(s, Pick(j, v), va) && DoPick(s, j, v, whose).Next?
    ensures Decides(s, Pick(j, v), DoPick(s, j, v, whose).world, va)
  {}

  lemma PickForDecides(s: World, j: nat, k: nat, v: nat, va: nat)
    requires Held(s, Pick(k, v), va) && DoPickFor(s, j, k, v).Next?
    ensures Decides(s, PickFor(j, k, v), DoPickFor(s, j, k, v).world, va)
  {
    hide Looks, SetSearch, IsLeaving, IsKept;
    LooksSupplied(s, j, 0);
    PickDecides(s, k, v, Some(j), va);
    SetSearchSame(DoPick(s, k, v, Some(j)).world, j, s.jobs[j].search.(stage := Evicting(k)), va);
  }

  lemma WriteDecides(s: World, a: Action, va: nat)
    requires Held(s, a, va) && WriteStep(s, a).Next? && !a.PickFor?
    ensures Decides(s, a, WriteStep(s, a).world, va)
  {
    hide DoPickFor, DoTakeSlot, DoWriteOut, DoZap;
    if a.TakeSlot? || a.WriteOut? || a.Zap? { SlotDecides(s, a, va); }
  }

  lemma SlotDecides(s: World, a: Action, va: nat)
    requires Held(s, a, va) && WriteStep(s, a).Next? && (a.TakeSlot? || a.WriteOut? || a.Zap?)
    ensures Decides(s, a, WriteStep(s, a).world, va)
  {
    hide DoPick, DoPickFor, DoMark, DoGuard, DoSample;
  }

  lemma RetireDecides(s: World, a: Action, va: nat)
    requires Held(s, a, va) && RetireStep(s, a).Next?
    ensures Decides(s, a, RetireStep(s, a).world, va)
  {}

  lemma HandOverDecides(s: World, j: nat, va: nat)
    requires DoHandOver(s, j).Next?
    ensures Decides(s, HandOver(j), DoHandOver(s, j).world, va)
  {
    hide Supply, Supplied, IsLeaving, IsKept;
    DroppedSame(s, j, va);
    SupplySame(Dropped(s, j), s.jobs[j].whose.value, s.jobs[j].f, va);
  }

  lemma ReleaseDecides(s: World, j: nat, va: nat)
    requires Held(s, Release(j), va) && DoRelease(s, j).Next?
    ensures Decides(s, Release(j), DoRelease(s, j).world, va)
  {}

  lemma ReturnDecides(s: World, a: Action, va: nat)
    requires Held(s, a, va) && ReturnStep(s, a).Next?
    ensures Decides(s, a, ReturnStep(s, a).world, va)
  {
    hide DoHandOver, DoRelease;
    if a.HandOver? {
      HandOverDecides(s, a.j, va);
    } else if a.Release? {
      ReleaseDecides(s, a.j, va);
    }
  }

  lemma ScanTakeDecides(s: World, j: nat, v: nat, whose: Option<nat>, va: nat)
    requires Held(s, ScanTake(j, v), va) && DoScanTake(s, j, v, whose).Next?
    ensures Decides(s, ScanTake(j, v), DoScanTake(s, j, v, whose).world, va)
  {}

  lemma SweepTakeDecides(s: World, j: nat, k: nat, v: nat, va: nat)
    requires Held(s, ScanTake(k, v), va) && DoSweepTake(s, j, k, v).Next?
    ensures Decides(s, SweepTake(j, k, v), DoSweepTake(s, j, k, v).world, va)
  {
    hide Looks, SetSearch, TurnOf, IsLeaving, IsKept;
    LooksSupplied(s, j, 0);
    ScanTakeDecides(s, k, v, Some(j), va);
    var Search(p, stage) := s.jobs[j].search;
    SetSearchSame(DoScanTake(s, k, v, Some(j)).world, j, Search(p, AtScan(stage.sweep, Some(k))), va);
  }

  lemma LookDecides(s: World, j: nat, va: nat)
    requires Held(s, Look(j), va) && DoLook(s, j).Next?
    ensures Decides(s, Look(j), DoLook(s, j).world, va)
  {}

  lemma ScanPutDecides(s: World, j: nat, to: Queue, va: nat)
    requires Held(s, ScanPut(j, to), va) && DoScanPut(s, j, to).Next?
    ensures Decides(s, ScanPut(j, to), DoScanPut(s, j, to).world, va)
  {
    hide Tell;
    var v := s.jobs[j].va;
    TellSame(EndJob(SetPage(s, v, s.pages[v].(list := Some(to), holder := None)), j), s.jobs[j].whose, j, to, va);
  }

  lemma ScanDecides(s: World, a: Action, va: nat)
    requires Held(s, a, va) && ScanStep(s, a).Next? && !a.SweepTake?
    ensures Decides(s, a, ScanStep(s, a).world, va)
  {
    hide Decides, DoScanTake, DoSweepTake, DoLook, DoScanPut;
    match a
    case ScanTake(j, v) => ScanTakeDecides(s, j, v, None, va);
    case Look(j) => LookDecides(s, j, va);
    case ScanPut(j, to) => ScanPutDecides(s, j, to, va);
  }

  lemma StepDecides(s: World, truth: map<nat, Bytes>, a: Action, va: nat)
    requires Sound(s, truth) && Step(s, a).Next?
    ensures Decides(s, a, Step(s, a).world, va)
  {
    hide Sound, Held, Decides, TouchStep, SearchStep, BringStep, RetireStep, ReturnStep;
    hide DoPick, DoPickFor, DoMark, DoGuard, DoSample, DoTakeSlot, DoWriteOut, DoZap;
    hide DoScanTake, DoSweepTake, DoLook, DoScanPut;
    SoundHeld(s, truth, a, va);
    match KindOf(a)
    case Touching => TouchDecides(s, a, va);
    case Searching => SearchDecides(s, a, va);
    case Bringing => BringDecides(s, a, va);
    case Writing =>
      if a.PickFor? {
        SoundHeld(s, truth, Pick(a.k, a.va), va);
        PickForDecides(s, a.j, a.k, a.va, va);
      } else {
        WriteDecides(s, a, va);
      }
    case Retiring => RetireDecides(s, a, va);
    case Returning => ReturnDecides(s, a, va);
    case Scans =>
      if a.SweepTake? {
        SoundHeld(s, truth, ScanTake(a.k, a.va), va);
        SweepTakeDecides(s, a.j, a.k, a.va, va);
      } else {
        ScanDecides(s, a, va);
      }
  }

  // ----- the accessed bit -----

  predicate SameBits(s: World, t: World) {
    t.accessed == s.accessed
  }

  lemma SearchBits(s: World, a: Action)
    requires SearchStep(s, a).Next?
    ensures SameBits(s, SearchStep(s, a).world)
  {
    hide Plenty, Looks, StartSweep, TurnOf;
    if a.TakeFrame? {
      LooksSupplied(s, a.j, a.f);
    } else {
      SearchIsSet(s, a);
    }
  }

  lemma ScanBits(s: World, a: Action)
    requires ScanStep(s, a).Next? && !a.Look?
    ensures SameBits(s, ScanStep(s, a).world)
  {
    hide Looks, TurnOf, Counted;
    if a.SweepTake? { LooksSupplied(s, a.j, 0); }
  }

  lemma WriteBits(s: World, a: Action)
    requires WriteStep(s, a).Next? && !a.Zap?
    ensures SameBits(s, WriteStep(s, a).world)
  {
    hide Looks, DoZap;
    if a.PickFor? { LooksSupplied(s, a.j, 0); }
  }

  lemma RetireBits(s: World, a: Action)
    requires RetireStep(s, a).Next?
    ensures SameBits(s, RetireStep(s, a).world)
  {}

  lemma ReturnBits(s: World, a: Action)
    requires ReturnStep(s, a).Next?
    ensures SameBits(s, ReturnStep(s, a).world)
  {
    hide Supplied;
  }

  /** The bit is set by a load or a store, cleared by a look or when the page is unmapped,
      and as the kernel leaves it when the page is mapped. */
  predicate Bit(s: World, a: Action, va: nat, was: bool) {
    if Uses(a, va) then true
    else if LooksOver(s, a, va) || (a.Zap? && Remaps(s, a, va)) then false
    else if (a.FillZero? || a.CopyIn?) && Remaps(s, a, va) then a.bits.accessed
    else was
  }

  ghost predicate Marks(s: World, a: Action, t: World, va: nat) {
    va in t.accessed <==> Bit(s, a, va, va in s.accessed)
  }

  lemma TouchMarks(s: World, a: Action, va: nat)
    requires TouchStep(s, a).Next?
    ensures Marks(s, a, TouchStep(s, a).world, va)
  {}

  lemma BringMarks(s: World, a: Action, va: nat)
    requires BringStep(s, a).Next?
    ensures Marks(s, a, BringStep(s, a).world, va)
  {
    hide BatchReady;
  }

  lemma ClearMarks(s: World, a: Action, va: nat)
    requires Step(s, a).Next? && (a.Look? || a.Zap?)
    ensures Marks(s, a, Step(s, a).world, va)
  {}

  lemma SameBitsMark(s: World, a: Action, t: World, va: nat)
    requires SameBits(s, t) && KindOf(a) != Touching && !a.Look? && !a.Zap? && !a.CopyIn?
    ensures Marks(s, a, t, va)
  {}

  lemma StepMarks(s: World, a: Action, va: nat)
    requires Step(s, a).Next?
    ensures Marks(s, a, Step(s, a).world, va)
  {
    hide Marks, SameBits, TouchStep, SearchStep, BringStep, WriteStep, RetireStep, ReturnStep, ScanStep;
    if a.Look? || a.Zap? {
      ClearMarks(s, a, va);
    } else {
      match KindOf(a) {
        case Touching => TouchMarks(s, a, va);
        case Searching => SearchBits(s, a);
        case Bringing => BringMarks(s, a, va);
        case Writing => WriteBits(s, a);
        case Retiring => RetireBits(s, a);
        case Returning => ReturnBits(s, a);
        case Scans => ScanBits(s, a);
      }
      if KindOf(a) != Touching && !a.CopyIn? && SameBits(s, Step(s, a).world) {
        SameBitsMark(s, a, Step(s, a).world, va);
      }
    }
  }

  // ----- runs -----

  /** In the run `steps` from `s`, page `va` was loaded or stored in, or mapped with its
      bit set, since it was last looked at, mapped or unmapped. */
  ghost predicate Used(s: World, steps: seq<Action>, va: nat) {
    if steps == [] then false
    else
      var (was, a) := (steps[..|steps| - 1], steps[|steps| - 1]);
      Run(s, was).Next? && Bit(Run(s, was).world, a, va, Used(s, was, va))
  }

  /** Whether the page was used when a scan last looked at it. */
  ghost function LastLook(s: World, steps: seq<Action>, va: nat): Option<bool> {
    if steps == [] then None
    else
      var (was, a) := (steps[..|steps| - 1], steps[|steps| - 1]);
      if Run(s, was).Next? && LooksOver(Run(s, was).world, a, va) then Some(Used(s, was, va))
      else LastLook(s, was, va)
  }

  ghost predicate Told(t: World, s: World, steps: seq<Action>, va: nat) {
    && (va in t.accessed <==> Used(s, steps, va))
    && (IsLeaving(t, va) ==> LastLook(s, steps, va) == Some(false))
    && (IsKept(t, va) ==> LastLook(s, steps, va) == Some(true))
  }

  lemma {:induction false} RunTold(frames: set<nat>, disk: map<nat, Bytes>, steps: seq<Action>, va: nat)
    requires Run(Start(frames, disk), steps).Next?
    ensures Told(Run(Start(frames, disk), steps).world, Start(frames, disk), steps, va)
  {
    hide Sound, Step, IsLeaving, IsKept;
    var s := Start(frames, disk);
    if steps == [] {
      NothingTold(frames, disk, va);
    } else {
      var (was, a) := (steps[..|steps| - 1], steps[|steps| - 1]);
      RunTold(frames, disk, was, va);
      RunSound(frames, disk, was);
      var s0 := Run(s, was).world;
      StepDecides(s0, Truth(s0, was), a, va);
      StepMarks(s0, a, va);
    }
  }

  lemma NothingTold(frames: set<nat>, disk: map<nat, Bytes>, va: nat)
    ensures !IsLeaving(Start(frames, disk), va) && !IsKept(Start(frames, disk), va)
  {}

  /** However the threads interleave, the accessed bit says whether a page was used since
      it was last looked at; a page that awaits eviction or is on disk was not in use when
      it was last looked at, and an active page was. */
  lemma SecondChance(frames: set<nat>, disk: map<nat, Bytes>, steps: seq<Action>, va: nat)
    requires Run(Start(frames, disk), steps).Next? && va in Run(Start(frames, disk), steps).world.pages
    ensures var (s, t) := (Start(frames, disk), Run(Start(frames, disk), steps).world);
      && (va in t.accessed <==> Used(s, steps, va))
      && (t.pages[va].list == Some(Eviction) || t.pages[va].swappedOut ==> LastLook(s, steps, va) == Some(false))
      && (t.pages[va].list == Some(Active) ==> LastLook(s, steps, va) == Some(true))
  {
    hide Sound, Step;
    RunTold(frames, disk, steps, va);
  }

  // ----- a page in the hands of a scan -----

  /** A look clears the bit; if it was set, the page cannot be put on the eviction list
      but on either other one, and if it was clear, only there. */
  lemma LookSpares(s: World, truth: map<nat, Bytes>, j: nat)
    requires Sound(s, truth) && j in s.jobs && s.jobs[j].Scanning?
    ensures Step(s, Look(j)).Next?
    ensures var (va, t) := (s.jobs[j].va, Step(s, Look(j)).world);
      && t.accessed == s.accessed - {va} && t.pages == s.pages
      && forall to :: if to == Eviction then Step(t, ScanPut(j, to)).Next? <==> va !in s.accessed
                      else if to == Active || to == Inactive then Step(t, ScanPut(j, to)).Next? <==> va in s.accessed
                      else Step(t, ScanPut(j, to)) == Blocked
  {
    assert JobOk(s, j);
    hide Sound, JobOk;
    Looked(s, j);
    hide Step;
    var t := Step(s, Look(j)).world;
    forall to ensures Step(t, ScanPut(j, to)).Next? <==> Sends(t.jobs[j].how, to) {
      PutAllowed(t, j, to);
    }
    forall to | !Sends(t.jobs[j].how, to) ensures Step(t, ScanPut(j, to)) == Blocked {
      PutAllowed(t, j, to);
    }
  }

  lemma Looked(s: World, j: nat)
    requires j in s.jobs && s.jobs[j].Scanning? && s.jobs[j].va in s.pages
    ensures Step(s, Look(j)).Next?
    ensures var (va, t) := (s.jobs[j].va, Step(s, Look(j)).world);
      && t.accessed == s.accessed - {va} && t.pages == s.pages
      && j in t.jobs && t.jobs[j] == Seen(va, if va in s.accessed then Hot else Cold, s.jobs[j].whose)
  {}

  lemma PutAllowed(s: World, j: nat, to: Queue)
    requires j in s.jobs && s.jobs[j].Seen? && s.jobs[j].va in s.pages
    ensures if Sends(s.jobs[j].how, to) then Step(s, ScanPut(j, to)).Next? else Step(s, ScanPut(j, to)) == Blocked
  {
    hide Tell;
  }

  /** An active page that a scan takes is demoted, without a look. */
  lemma TakeDemotes(s: World, j: nat, va: nat)
    requires Step(s, ScanTake(j, va)).Next? && s.pages[va].list == Some(Active)
    ensures var t := Step(s, ScanTake(j, va)).world;
      && Step(t, Look(j)) == Blocked && forall to :: Step(t, ScanPut(j, to)).Next? <==> to == Inactive
  {
    Taken(s, j, va);
    var t := Step(s, ScanTake(j, va)).world;
    hide Step;
    forall to ensures Step(t, ScanPut(j, to)).Next? <==> to == Inactive {
      PutAllowed(t, j, to);
    }
  }

  lemma Taken(s: World, j: nat, va: nat)
    requires Step(s, ScanTake(j, va)).Next? && s.pages[va].list == Some(Active)
    ensures var t := Step(s, ScanTake(j, va)).world;
      && va in t.pages && j in t.jobs && t.jobs[j] == Seen(va, WasActive, None) && Step(t, Look(j)) == Blocked
  {}

  /** A page that is put on a list is there, and no other page has moved. */
  lemma PutMoves(s: World, j: nat, to: Queue)
    requires Step(s, ScanPut(j, to)).Next?
    ensures j in s.jobs && s.jobs[j].Seen? && s.jobs[j].va in s.pages
    ensures var (va, t) := (s.jobs[j].va, Step(s, ScanPut(j, to)).world);
      && t.pages == s.pages[va := s.pages[va].(list := Some(to), holder := None)] && t.accessed == s.accessed
  {
    hide Counted;
  }

  // ----- a page in the hands of an eviction -----

  /** A clean page that has a slot is not written, any other one is, to the slot it has or
      to a free one. */
  lemma WritesBack(s: World, j: nat, d: nat)
    requires j in s.jobs && s.jobs[j].Guarded? && Run(s, [Sample(j), TakeSlot(j, d), WriteOut(j)]).Next?
    ensures s.jobs[j].va in s.pages && s.jobs[j].va in s.ram
    ensures var (va, t) := (s.jobs[j].va, Run(s, [Sample(j), TakeSlot(j, d), WriteOut(j)]).world);
      && (s.pages[va].reserve == Some(d) || (s.pages[va].reserve == None && IsFree(s.slots, d)))
      && t.disk == (if s.pages[va].reserve.Some? && va !in s.dirty then s.disk else s.disk[d := s.ram[va]])
      && t.pages == s.pages && t.ram == s.ram
  {
    hide Run, Step;
    RunThreeNext(s, Sample(j), TakeSlot(j, d), WriteOut(j));
    RunThree(s, Sample(j), TakeSlot(j, d), WriteOut(j));
    SampleStep(s, j);
    var a := Step(s, Sample(j)).world;
    SlotStep(a, j, d);
    WriteOutStep(Step(a, TakeSlot(j, d)).world, j);
  }

  lemma RunThreeNext(s: World, a: Action, b: Action, c: Action)
    requires Run(s, [a, b, c]).Next?
    ensures Step(s, a).Next? && Step(Step(s, a).world, b).Next?
  {
    hide Step;
    OneStep(s, a);
    assert [a, b, c][..2] == [a, b] && [a, b][..1] == [a];
  }

  lemma SampleStep(s: World, j: nat)
    requires j in s.jobs && s.jobs[j].Guarded? && Step(s, Sample(j)).Next?
    ensures var (va, t) := (s.jobs[j].va, Step(s, Sample(j)).world);
      && va in s.pages && t == s.(jobs := t.jobs)
      && j in t.jobs && t.jobs[j] == Sampled(va, va in s.dirty || s.pages[va].reserve == None, s.jobs[j].whose)
  {}

  lemma SlotStep(s: World, j: nat, d: nat)
    requires j in s.jobs && s.jobs[j].Sampled? && Step(s, TakeSlot(j, d)).Next?
    ensures var (va, t) := (s.jobs[j].va, Step(s, TakeSlot(j, d)).world);
      && va in s.pages && t == s.(jobs := t.jobs, slots := t.slots)
      && (s.pages[va].reserve == Some(d) || (s.pages[va].reserve == None && IsFree(s.slots, d)))
      && j in t.jobs && t.jobs[j] == WithSlot(va, d, s.jobs[j].writeback, s.jobs[j].whose)
  {}

  lemma WriteOutStep(s: World, j: nat)
    requires j in s.jobs && s.jobs[j].WithSlot? && Step(s, WriteOut(j)).Next?
    ensures var (va, t) := (s.jobs[j].va, Step(s, WriteOut(j)).world);
      && va in s.ram && t.pages == s.pages && t.ram == s.ram
      && t.disk == if s.jobs[j].writeback then s.disk[s.jobs[j].d := s.ram[va]] else s.disk
  {}
}
