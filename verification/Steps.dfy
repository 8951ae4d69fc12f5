/** Every single step of the protocol keeps the invariant, and no assertion of the
    code fails. */
module Steps {
  import opened Machine
  import opened SwapIn
  import opened Protocol
  import opened Ownership

  lemma FillZeroKeeps(s: World, truth: map<nat, Bytes>, j: nat, bits: Bits)
    requires Sound(s, truth)
    ensures !DoFillZero(s, j, bits).Crash?
    ensures DoFillZero(s, j, bits).Next? ==> Sound(DoFillZero(s, j, bits).world, truth)
  {
    hide Rests, FrameOk;
    if DoFillZero(s, j, bits) != Blocked {
      var va := s.jobs[j].va;
      assert JobOk(s, j) && PageOk(s, truth, va);
      TouchedKeeps(s, truth, Map(s, va, ZeroPage(), bits), va, j, Filled(va));
    }
  }

  lemma UnmarkKeeps(s: World, truth: map<nat, Bytes>, j: nat)
    requires Sound(s, truth)
    ensures !DoUnmark(s, j).Crash?
    ensures DoUnmark(s, j).Next? ==> Sound(DoUnmark(s, j).world, truth)
  {
    hide FrameOk, SlotOk;
    if DoUnmark(s, j) != Blocked {
      var va := s.jobs[j].va;
      assert JobOk(s, j) && PageOk(s, truth, va);
      TurnedKeeps(s, truth, va, s.pages[va].(migrating := false, swappedOut := false), j, Some(Cleared(va)));
    }
  }

  lemma TrackKeeps(s: World, truth: map<nat, Bytes>, j: nat)
    requires Sound(s, truth)
    ensures !DoTrack(s, j).Crash?
    ensures DoTrack(s, j).Next? ==> Sound(DoTrack(s, j).world, truth)
  {
    hide FrameOk, SlotOk;
    if DoTrack(s, j) != Blocked {
      var va := s.jobs[j].va;
      assert JobOk(s, j) && PageOk(s, truth, va);
      TurnedKeeps(s, truth, va, s.pages[va].(list := Some(Inactive), holder := None), j, None);
    }
  }

  lemma ClaimKeeps(s: World, truth: map<nat, Bytes>, j: nat, va: nat, batch: nat)
    requires Sound(s, truth)
    ensures !DoClaim(s, j, va, batch).Crash?
    ensures DoClaim(s, j, va, batch).Next? ==> Sound(DoClaim(s, j, va, batch).world, truth)
  {
    hide FrameOk, SlotOk;
    if DoClaim(s, j, va, batch).Next? {
      assert PageOk(s, truth, va);
      TurnedKeeps(s, truth, va, s.pages[va].(migrating := true, holder := Some(j)), j, Some(Claimed(va, batch)));
    }
  }

  lemma UnlistKeeps(s: World, truth: map<nat, Bytes>, j: nat)
    requires Sound(s, truth)
    ensures !DoUnlist(s, j).Crash?
    ensures DoUnlist(s, j).Next? ==> Sound(DoUnlist(s, j).world, truth)
  {
    hide FrameOk, SlotOk;
    if DoUnlist(s, j) != Blocked {
      var va := s.jobs[j].va;
      assert JobOk(s, j) && PageOk(s, truth, va);
      TurnedKeeps(s, truth, va, s.pages[va].(list := None), j, Some(Detached(va, s.jobs[j].batch)));
    }
  }

  lemma SubmitKeeps(s: World, truth: map<nat, Bytes>, j: nat)
    requires Sound(s, truth)
    ensures !DoSubmit(s, j).Crash?
    ensures DoSubmit(s, j).Next? ==> Sound(DoSubmit(s, j).world, truth)
  {
    hide Rests, FrameOk;
    if DoSubmit(s, j) != Blocked {
      var va := s.jobs[j].va;
      assert JobOk(s, j) && PageOk(s, truth, va);
      TouchedKeeps(s, truth, s, va, j, Reading(va, s.jobs[j].batch, None, None, Search(PRIORITY, AtFree)));
    }
  }

  lemma CompleteKeeps(s: World, truth: map<nat, Bytes>, j: nat)
    requires Sound(s, truth)
    ensures !DoComplete(s, j).Crash?
    ensures DoComplete(s, j).Next? ==> Sound(DoComplete(s, j).world, truth)
  {
    hide Rests, FrameOk;
    if DoComplete(s, j) != Blocked {
      var va := s.jobs[j].va;
      assert JobOk(s, j) && PageOk(s, truth, va);
      TouchedKeeps(s, truth, s, va, j, s.jobs[j].(buffer := Some(s.disk[s.pages[va].spot.d])));
    }
  }

  lemma CopyInKeeps(s: World, truth: map<nat, Bytes>, j: nat, bits: Bits)
    requires Sound(s, truth)
    ensures !DoCopyIn(s, j, bits).Crash?
    ensures DoCopyIn(s, j, bits).Next? ==> Sound(DoCopyIn(s, j, bits).world, truth)
  {
    hide Rests, FrameOk;
    if DoCopyIn(s, j, bits) != Blocked {
      var va := s.jobs[j].va;
      assert JobOk(s, j) && PageOk(s, truth, va);
      TouchedKeeps(s, truth, Map(s, va, s.jobs[j].buffer.value, bits), va, j, Copied(va, s.jobs[j].frame.value));
    }
  }

  /** Pages on these lists are held by no job. */
  lemma AtRest(s: World, truth: map<nat, Bytes>, va: nat)
    requires va in s.pages && PageOk(s, truth, va)
    requires s.pages[va].list == Some(Active) || s.pages[va].list == Some(Inactive) || s.pages[va].list == Some(Eviction)
    ensures s.pages[va].holder == None && !s.pages[va].migrating && InMemory(s, va, s.pages[va], false)
  {}

  lemma PickKeeps(s: World, truth: map<nat, Bytes>, j: nat, va: nat, whose: Option<nat>)
    requires Sound(s, truth)
    ensures !DoPick(s, j, va, whose).Crash?
    ensures DoPick(s, j, va, whose).Next? ==> Sound(DoPick(s, j, va, whose).world, truth)
  {
    hide FrameOk, SlotOk, PageOk;
    if DoPick(s, j, va, whose).Next? {
      assert PageOk(s, truth, va);
      AtRest(s, truth, va);
      TurnedKeeps(s, truth, va, s.pages[va].(list := None, holder := Some(j)), j, Some(Picked(va, whose)));
    }
  }

  lemma MarkKeeps(s: World, truth: map<nat, Bytes>, j: nat)
    requires Sound(s, truth)
    ensures !DoMark(s, j).Crash?
    ensures DoMark(s, j).Next? ==> Sound(DoMark(s, j).world, truth)
  {
    hide FrameOk, SlotOk;
    if DoMark(s, j) != Blocked {
      var va := s.jobs[j].va;
      assert JobOk(s, j) && PageOk(s, truth, va);
      TurnedKeeps(s, truth, va, s.pages[va].(migrating := true), j, Some(Marked(va, s.jobs[j].whose)));
    }
  }

  lemma GuardKeeps(s: World, truth: map<nat, Bytes>, j: nat)
    requires Sound(s, truth)
    ensures !DoGuard(s, j).Crash?
    ensures DoGuard(s, j).Next? ==> Sound(DoGuard(s, j).world, truth)
  {
    hide Rests, FrameOk;
    if DoGuard(s, j) != Blocked {
      var va := s.jobs[j].va;
      assert JobOk(s, j) && PageOk(s, truth, va);
      TouchedKeeps(s, truth, s.(protected := s.protected + {va}), va, j, Guarded(va, s.jobs[j].whose));
    }
  }

  lemma SampleKeeps(s: World, truth: map<nat, Bytes>, j: nat)
    requires Sound(s, truth)
    ensures !DoSample(s, j).Crash?
    ensures DoSample(s, j).Next? ==> Sound(DoSample(s, j).world, truth)
  {
    hide Rests, FrameOk;
    if DoSample(s, j) != Blocked {
      var va := s.jobs[j].va;
      assert JobOk(s, j) && PageOk(s, truth, va);
      TouchedKeeps(s, truth, s, va, j, Sampled(va, va in s.dirty || s.pages[va].reserve.None?, s.jobs[j].whose));
    }
  }

  lemma WriteOutKeeps(s: World, truth: map<nat, Bytes>, j: nat)
    requires Sound(s, truth)
    ensures !DoWriteOut(s, j).Crash?
    ensures DoWriteOut(s, j).Next? ==> Sound(DoWriteOut(s, j).world, truth)
  {
    hide Rests, FrameOk;
    if DoWriteOut(s, j) != Blocked {
      var va := s.jobs[j].va;
      assert JobOk(s, j) && PageOk(s, truth, va);
      var d := s.jobs[j].d;
      assert SlotOk(s, d);
      TouchedKeeps(s, truth, if s.jobs[j].writeback then s.(disk := s.disk[d := s.ram[va]]) else s, va, j, Written(va, d, s.jobs[j].whose));
    }
  }

  lemma ZapKeeps(s: World, truth: map<nat, Bytes>, j: nat)
    requires Sound(s, truth)
    ensures !DoZap(s, j).Crash?
    ensures DoZap(s, j).Next? ==> Sound(DoZap(s, j).world, truth)
  {
    hide Rests, FrameOk;
    if DoZap(s, j) != Blocked {
      var va := s.jobs[j].va;
      assert JobOk(s, j) && PageOk(s, truth, va);
      TouchedKeeps(s, truth, DoZap(s, j).world.(jobs := s.jobs), va, j, Gone(va, s.jobs[j].d, s.jobs[j].whose));
    }
  }

  lemma FlagKeeps(s: World, truth: map<nat, Bytes>, j: nat)
    requires Sound(s, truth)
    ensures !DoFlag(s, j).Crash?
    ensures DoFlag(s, j).Next? ==> Sound(DoFlag(s, j).world, truth)
  {
    hide FrameOk, SlotOk;
    if DoFlag(s, j) != Blocked {
      var va := s.jobs[j].va;
      assert JobOk(s, j) && PageOk(s, truth, va);
      TurnedKeeps(s, truth, va, s.pages[va].(swappedOut := true), j, Some(Flagged(va, Some(s.jobs[j].f), s.jobs[j].whose)));
    }
  }

  lemma ListKeeps(s: World, truth: map<nat, Bytes>, j: nat)
    requires Sound(s, truth)
    ensures !DoList(s, j).Crash?
    ensures DoList(s, j).Next? ==> Sound(DoList(s, j).world, truth)
  {
    hide FrameOk, SlotOk;
    if DoList(s, j) != Blocked {
      var va := s.jobs[j].va;
      assert JobOk(s, j) && PageOk(s, truth, va);
      TurnedKeeps(s, truth, va, s.pages[va].(reserve := None, list := Some(DiskActive)), j, Some(Listed(va, s.jobs[j].frame, s.jobs[j].whose)));
    }
  }

  lemma ReleaseKeeps(s: World, truth: map<nat, Bytes>, j: nat)
    requires Sound(s, truth)
    ensures !DoRelease(s, j).Crash?
    ensures DoRelease(s, j).Next? ==> Sound(DoRelease(s, j).world, truth)
  {
    hide FrameOk, SlotOk;
    if DoRelease(s, j) != Blocked {
      var va := s.jobs[j].va;
      assert JobOk(s, j) && PageOk(s, truth, va);
      TurnedKeeps(s, truth, va, s.pages[va].(migrating := false, holder := None), j, if s.jobs[j].frame.Some? then Some(Spare(s.jobs[j].frame.value, s.jobs[j].whose)) else None);
    }
  }

  lemma ScanTakeKeeps(s: World, truth: map<nat, Bytes>, j: nat, va: nat, whose: Option<nat>)
    requires Sound(s, truth)
    ensures !DoScanTake(s, j, va, whose).Crash?
    ensures DoScanTake(s, j, va, whose).Next? ==> Sound(DoScanTake(s, j, va, whose).world, truth)
  {
    hide FrameOk, SlotOk, PageOk;
    if DoScanTake(s, j, va, whose).Next? {
      assert PageOk(s, truth, va);
      AtRest(s, truth, va);
      TurnedKeeps(s, truth, va, s.pages[va].(list := None, holder := Some(j)), j,
                  Some(if s.pages[va].list == Some(Active) then Seen(va, WasActive, whose) else Scanning(va, whose)));
    }
  }

  lemma LookKeeps(s: World, truth: map<nat, Bytes>, j: nat)
    requires Sound(s, truth)
    ensures !DoLook(s, j).Crash?
    ensures DoLook(s, j).Next? ==> Sound(DoLook(s, j).world, truth)
  {
    hide Rests, FrameOk;
    if DoLook(s, j) != Blocked {
      var va := s.jobs[j].va;
      assert JobOk(s, j) && PageOk(s, truth, va);
      TouchedKeeps(s, truth, s.(accessed := s.accessed - {va}), va, j, Seen(va, if va in s.accessed then Hot else Cold, s.jobs[j].whose));
    }
  }

  // ----- steps that pass frames and slots on -----

  lemma FaultNewKeeps(s: World, truth: map<nat, Bytes>, j: nat, va: nat)
    requires Sound(s, truth)
    ensures DoFaultNew(s, j, va).Next? ==> Sound(DoFaultNew(s, j, va).world, truth)
  {
    hide PageOk, SlotOk;
    if j !in s.jobs {
      forall f | f in s.frames ensures FrameOk(s, f) {}
      FrameOnlyKeeps(s, truth, SetJob(s, j, WantFrame(va, Search(PRIORITY, AtFree))), j);
    }
  }

  lemma SupplyKeeps(s: World, truth: map<nat, Bytes>, j: nat, f: nat)
    requires Sound(s, truth) && j in s.jobs && Supplied(s.jobs[j], f).Some? && IsFree(s.frames, f)
    ensures Sound(Supply(s, j, f), truth)
  {
    hide SlotOk;
    assert JobOk(s, j);
    forall x | x in s.frames ensures FrameOk(s, x) {}
    if HoldsAt(s, j).Some? { assert PageOk(s, truth, s.jobs[j].va); }
    FrameOnlyKeeps(s, truth, Supply(s, j, f), j);
  }

  lemma SetSearchKeeps(s: World, truth: map<nat, Bytes>, j: nat, search: Search)
    requires Sound(s, truth) && j in s.jobs && Searches(s.jobs[j])
    ensures Sound(SetSearch(s, j, search), truth)
  {
    hide SlotOk;
    assert JobOk(s, j);
    forall x | x in s.frames ensures FrameOk(s, x) {}
    if HoldsAt(s, j).Some? { assert PageOk(s, truth, s.jobs[j].va); }
    FrameOnlyKeeps(s, truth, SetSearch(s, j, search), j);
  }

  lemma SearchStepKeeps(s: World, truth: map<nat, Bytes>, a: Action)
    requires Sound(s, truth)
    ensures SearchStep(s, a).Next? ==> Sound(SearchStep(s, a).world, truth)
    ensures SearchStep(s, a).Crash? ==> a.MissVictim?
  {
    hide Sound, Supply, SetSearch, Plenty, Looks, IsFree, Supplied, StartSweep, TurnOf;
    if SearchStep(s, a).Next? {
      LooksSupplied(s, a.j, if a.TakeFrame? then a.f else 0);
      if a.TakeFrame? {
        SupplyKeeps(s, truth, a.j, a.f);
      } else {
        SearchIsSet(s, a);
        SetSearchKeeps(s, truth, a.j, SearchAfter(s, a));
      }
    }
  }

  /** How a step of a search that finds nothing goes on. */
  function SearchAfter(s: World, a: Action): Search
    requires KindOf(a) == Searching && !a.TakeFrame? && a.j in s.jobs && Searches(s.jobs[a.j])
  {
    var Search(p, stage) := s.jobs[a.j].search;
    match a
    case MissFree(_) => Search(p, AtReclaim)
    case Reclaim(_, skip) =>
      if !skip && Plenty(s) && p > 0 then Search(p - 1, AtScan(StartSweep(s, p), None)) else Search(p, AtVictim)
    case SweepOn(_) =>
      if stage.AtScan? && TurnOf(s, stage.sweep).Goes? then Search(p, AtScan(TurnOf(s, stage.sweep).sweep, None))
      else Search(p, AtVictim)
    case MissVictim(_) => Search(p, AtFree)
  }

  lemma SearchIsSet(s: World, a: Action)
    requires SearchStep(s, a).Next? && !a.TakeFrame?
    ensures KindOf(a) == Searching && a.j in s.jobs && Searches(s.jobs[a.j])
    ensures SearchStep(s, a) == Go(SetSearch(s, a.j, SearchAfter(s, a)))
  {
    hide Plenty, StartSweep, TurnOf;
  }

  /** A page in hand for a search: two steps in one. */
  lemma PickForKeeps(s: World, truth: map<nat, Bytes>, j: nat, k: nat, va: nat)
    requires Sound(s, truth)
    ensures !DoPickFor(s, j, k, va).Crash?
    ensures DoPickFor(s, j, k, va).Next? ==> Sound(DoPickFor(s, j, k, va).world, truth)
  {
    hide Sound, Looks, SetSearch;
    if DoPickFor(s, j, k, va).Next? {
      LooksSupplied(s, j, 0);
      PickKeeps(s, truth, k, va, Some(j));
      SetSearchKeeps(DoPick(s, k, va, Some(j)).world, truth, j, s.jobs[j].search.(stage := Evicting(k)));
    }
  }

  lemma SweepTakeKeeps(s: World, truth: map<nat, Bytes>, j: nat, k: nat, va: nat)
    requires Sound(s, truth)
    ensures !DoSweepTake(s, j, k, va).Crash?
    ensures DoSweepTake(s, j, k, va).Next? ==> Sound(DoSweepTake(s, j, k, va).world, truth)
  {
    hide Sound, Looks, SetSearch, TurnOf;
    if DoSweepTake(s, j, k, va).Next? {
      LooksSupplied(s, j, 0);
      ScanTakeKeeps(s, truth, k, va, Some(j));
      var Search(p, stage) := s.jobs[j].search;
      SetSearchKeeps(DoScanTake(s, k, va, Some(j)).world, truth, j, Search(p, AtScan(stage.sweep, Some(k))));
    }
  }

  lemma TellKeeps(s: World, truth: map<nat, Bytes>, whose: Option<nat>, j: nat, to: Queue)
    requires Sound(s, truth)
    ensures Sound(Tell(s, whose, j, to), truth)
  {
    hide Sound, SetSearch;
    if Tell(s, whose, j, to) != s {
      var Search(p, stage) := s.jobs[whose.value].search;
      SetSearchKeeps(s, truth, whose.value, Search(p, AtScan(Counted(stage.sweep, to), None)));
    }
  }

  lemma ScanPutKeeps(s: World, truth: map<nat, Bytes>, j: nat, to: Queue)
    requires Sound(s, truth)
    ensures !DoScanPut(s, j, to).Crash?
    ensures DoScanPut(s, j, to).Next? ==> Sound(DoScanPut(s, j, to).world, truth)
  {
    hide FrameOk, SlotOk, Tell;
    if DoScanPut(s, j, to) != Blocked {
      var va := s.jobs[j].va;
      assert JobOk(s, j) && PageOk(s, truth, va);
      TurnedKeeps(s, truth, va, s.pages[va].(list := Some(to), holder := None), j, None);
      TellKeeps(EndJob(SetPage(s, va, s.pages[va].(list := Some(to), holder := None)), j), truth, s.jobs[j].whose, j, to);
    }
  }

  lemma LooksSupplied(s: World, j: nat, f: nat)
    requires Looks(s, j)
    ensures j in s.jobs && Searches(s.jobs[j]) && Supplied(s.jobs[j], f).Some?
  {}

  lemma DroppedKeeps(s: World, truth: map<nat, Bytes>, j: nat)
    requires Sound(s, truth) && j in s.jobs && s.jobs[j].Spare?
    ensures Sound(Dropped(s, j), truth)
  {
    hide SlotOk, PageOk;
    assert JobOk(s, j);
    forall x | x in s.frames ensures FrameOk(s, x) {}
    FrameOnlyKeeps(s, truth, Dropped(s, j), j);
  }

  lemma DroppedFrees(s: World, truth: map<nat, Bytes>, j: nat)
    requires Sound(s, truth) && j in s.jobs && s.jobs[j].Spare?
    ensures IsFree(Dropped(s, j).frames, s.jobs[j].f)
  {
    assert JobOk(s, j);
  }

  lemma HandOverKeeps(s: World, truth: map<nat, Bytes>, j: nat)
    requires Sound(s, truth)
    ensures !DoHandOver(s, j).Crash?
    ensures DoHandOver(s, j).Next? ==> Sound(DoHandOver(s, j).world, truth)
  {
    hide Sound;
    if DoHandOver(s, j).Next? {
      DroppedKeeps(s, truth, j);
      DroppedFrees(s, truth, j);
      SupplyKeeps(Dropped(s, j), truth, s.jobs[j].whose.value, s.jobs[j].f);
    }
  }

  lemma FreeFrameKeeps(s: World, truth: map<nat, Bytes>, j: nat)
    requires Sound(s, truth)
    ensures DoFreeFrame(s, j).Next? ==> Sound(DoFreeFrame(s, j).world, truth)
  {
    hide SlotOk;
    if DoFreeFrame(s, j).Next? {
      assert JobOk(s, j);
      forall x | x in s.frames ensures FrameOk(s, x) {}
      if HoldsAt(s, j).Some? { assert PageOk(s, truth, s.jobs[j].va); }
      FrameOnlyKeeps(s, truth, DoFreeFrame(s, j).world, j);
    }
  }

  function AddedTruth(s: World, truth: map<nat, Bytes>, j: nat): map<nat, Bytes>
    requires j in s.jobs && s.jobs[j].HasFrame?
  {
    if s.jobs[j].va in s.pages then truth else truth[s.jobs[j].va := ZeroPage()]
  }

  lemma CheckNewOwners(s: World, j: nat)
    requires j in s.jobs && s.jobs[j].HasFrame? && JobOk(s, j) && s.jobs[j].va !in s.pages
    ensures Rehomed(s, DoCheckNew(s, j).world, s.jobs[j].va, j)
    ensures OwnersOk(s, DoCheckNew(s, j).world, s.jobs[j].va, j)
  {}

  lemma CheckNewKeeps(s: World, truth: map<nat, Bytes>, j: nat)
    requires Sound(s, truth) && j in s.jobs && s.jobs[j].HasFrame?
    ensures Sound(DoCheckNew(s, j).world, AddedTruth(s, truth, j))
  {
    hide Rests, Rehomed, OwnersOk;
    var HasFrame(va, f) := s.jobs[j];
    var t := DoCheckNew(s, j).world;
    assert JobOk(s, j);
    if va in s.pages {
      forall x | x in s.frames ensures FrameOk(s, x) {}
      FrameOnlyKeeps(s, truth, t, j);
    } else {
      CheckNewOwners(s, j);
      RehomedKeeps(s, truth, t, AddedTruth(s, truth, j), va, j);
    }
  }

  lemma PublishOwners(s: World, j: nat)
    requires j in s.jobs && s.jobs[j].Copied? && s.jobs[j].va in s.pages && JobOk(s, j) && DoPublish(s, j).Next?
    requires s.pages[s.jobs[j].va].reserve.None?
    ensures Rehomed(s, DoPublish(s, j).world, s.jobs[j].va, j) && OwnersOk(s, DoPublish(s, j).world, s.jobs[j].va, j)
  {}

  lemma PublishKeeps(s: World, truth: map<nat, Bytes>, j: nat)
    requires Sound(s, truth)
    ensures !DoPublish(s, j).Crash?
    ensures DoPublish(s, j).Next? ==> Sound(DoPublish(s, j).world, truth)
  {
    hide FrameOk, SlotOk, Rehomed, OwnersOk;
    if DoPublish(s, j) != Blocked {
      var va := s.jobs[j].va;
      assert JobOk(s, j) && PageOk(s, truth, va);
      PublishOwners(s, j);
      RehomedKeeps(s, truth, DoPublish(s, j).world, truth, va, j);
    }
  }

  lemma MoveOwners(s: World, j: nat)
    requires j in s.jobs && s.jobs[j].Gone? && s.jobs[j].va in s.pages && JobOk(s, j) && DoMove(s, j).Next?
    requires Only(s.pages[s.jobs[j].va].reserve, s.jobs[j].d)
    requires var f := s.pages[s.jobs[j].va].spot.f; f in s.frames && s.frames[f] == OfPage(s.jobs[j].va)
    requires SlotOf(s.jobs[j]).value in s.slots && Mine(s.slots[s.jobs[j].d], s.jobs[j].va, Some(j))
    ensures OwnersOk(s, DoMove(s, j).world, s.jobs[j].va, j)
  {}

  lemma MoveRehomed(s: World, j: nat)
    requires j in s.jobs && s.jobs[j].Gone? && s.jobs[j].va in s.pages && JobOk(s, j) && DoMove(s, j).Next?
    requires var f := s.pages[s.jobs[j].va].spot.f; f in s.frames && s.frames[f] == OfPage(s.jobs[j].va)
    ensures Rehomed(s, DoMove(s, j).world, s.jobs[j].va, j)
    ensures s.jobs[j].d in s.slots && Mine(s.slots[s.jobs[j].d], s.jobs[j].va, Some(j))
  {}

  lemma MovedPage(s: World, truth: map<nat, Bytes>, j: nat)
    requires j in s.jobs && s.jobs[j].Gone? && s.jobs[j].va in s.pages
    requires JobOk(s, j) && PageOk(s, truth, s.jobs[j].va)
    ensures var (r, va) := (DoMove(s, j), s.jobs[j].va);
      && r.Next? && PageOk(r.world, truth, va) && j in r.world.jobs && JobOk(r.world, j)
      && Only(s.pages[va].reserve, s.jobs[j].d)
      && s.pages[va].spot.f in s.frames && s.frames[s.pages[va].spot.f] == OfPage(va)
  {
    hide Rests;
  }

  lemma MoveKeeps(s: World, truth: map<nat, Bytes>, j: nat)
    requires Sound(s, truth)
    ensures !DoMove(s, j).Crash?
    ensures DoMove(s, j).Next? ==> Sound(DoMove(s, j).world, truth)
  {
    hide FrameOk, SlotOk, Rehomed, OwnersOk, PageOk, JobOk;
    if DoMove(s, j) != Blocked {
      var va := s.jobs[j].va;
      assert JobOk(s, j);
      HoldsPage(s, j);
      assert PageOk(s, truth, va);
      MovedPage(s, truth, j);
      MoveRehomed(s, j);
      MoveOwners(s, j);
      RehomedKeeps(s, truth, DoMove(s, j).world, truth, va, j);
    }
  }

  lemma HoldsPage(s: World, j: nat)
    requires j in s.jobs && JobOk(s, j)
    ensures Holds(s.jobs[j]).Some? ==> Holds(s.jobs[j]).value in s.pages
  {}

  lemma TakeSlotOwners(s: World, j: nat, d: nat)
    requires j in s.jobs && s.jobs[j].Sampled? && s.jobs[j].va in s.pages && JobOk(s, j) && DoTakeSlot(s, j, d).Next?
    ensures OwnersOk(s, DoTakeSlot(s, j, d).world, s.jobs[j].va, j)
  {}

  lemma TakeSlotRehomed(s: World, j: nat, d: nat)
    requires j in s.jobs && s.jobs[j].Sampled? && s.jobs[j].va in s.pages && JobOk(s, j) && DoTakeSlot(s, j, d).Next?
    ensures Rehomed(s, DoTakeSlot(s, j, d).world, s.jobs[j].va, j)
  {}

  lemma TakeSlotKeeps(s: World, truth: map<nat, Bytes>, j: nat, d: nat)
    requires Sound(s, truth)
    ensures DoTakeSlot(s, j, d).Next? ==> Sound(DoTakeSlot(s, j, d).world, truth)
  {
    hide FrameOk, SlotOk, Rehomed, OwnersOk;
    if DoTakeSlot(s, j, d).Next? {
      var va := s.jobs[j].va;
      assert JobOk(s, j) && PageOk(s, truth, va);
      TakeSlotRehomed(s, j, d);
      TakeSlotOwners(s, j, d);
      RehomedKeeps(s, truth, DoTakeSlot(s, j, d).world, truth, va, j);
    }
  }

  /** The program changes only what is mapped at `va`, and its bits. */
  lemma AccessKeeps(s: World, truth: map<nat, Bytes>, t: World, after: map<nat, Bytes>, va: nat)
    requires Sound(s, truth) && va in s.ram && t.ram.Keys == s.ram.Keys
    requires t == s.(ram := t.ram, dirty := t.dirty, accessed := t.accessed)
    requires SameElsewhere(s, t, va) && t.dirty <= t.ram.Keys && SameTruth(truth, after, va, t)
    requires PageOk(t, after, va)
    ensures Sound(t, after)
  {
    hide PageOk;
    forall j | j in s.jobs ensures JobOk(t, j) { assert JobOk(s, j); }
    forall f | f in s.frames ensures FrameOk(t, f) { assert FrameOk(s, f); }
    forall d | d in s.slots ensures SlotOk(t, d) { assert SlotOk(s, d); }
    LocalKeeps(s, truth, t, after, va, None);
  }

  lemma LoadKeeps(s: World, truth: map<nat, Bytes>, va: nat)
    requires Sound(s, truth)
    ensures DoLoad(s, va).Next? ==> Sound(DoLoad(s, va).world, truth)
    ensures DoLoad(s, va).Next? ==> va in truth && DoLoad(s, va).value == Some(truth[va])
  {
    hide FrameOk, SlotOk, JobOk;
    if va in s.ram {
      assert PageOk(s, truth, va);
      AccessKeeps(s, truth, DoLoad(s, va).world, truth, va);
    }
  }

  lemma StoredPage(s: World, truth: map<nat, Bytes>, va: nat, bytes: Bytes)
    requires va in s.pages && PageOk(s, truth, va) && DoStore(s, va, bytes).Next?
    ensures PageOk(DoStore(s, va, bytes).world, truth[va := bytes], va)
  {}

  lemma StoreKeeps(s: World, truth: map<nat, Bytes>, va: nat, bytes: Bytes)
    requires Sound(s, truth)
    ensures DoStore(s, va, bytes).Next? ==> Sound(DoStore(s, va, bytes).world, truth[va := bytes])
  {
    hide FrameOk, SlotOk, JobOk, PageOk;
    if DoStore(s, va, bytes).Next? {
      assert PageOk(s, truth, va);
      StoredPage(s, truth, va, bytes);
      AccessKeeps(s, truth, DoStore(s, va, bytes).world, truth[va := bytes], va);
    }
  }
}
