/** The paging protocol as single steps of any number of threads: faulting,
    prefetching, evicting and scanning threads interleave with each other and with
    the program's loads and stores.

    A job is one page transition that a thread works on; a thread that prefetches,
    or evicts a vector, runs several.  Publication of a page that was swapped in is
    one step.  Nothing is unmapped by the program here.

    A search for a frame goes round the three looks of `fetch_free_asynch`: at the
    free list, at the lengths of the lists to start a reclaim, and at the eviction
    list.  The thread's own reclaim takes the pages through its hands one by one, with
    the counters of `direct_allocate_page_asynch`; each page in hand is a scanning job
    that knows for which search it works.  So is the page that a thread evicts for
    itself.  Other scanning and evicting jobs are those of the background workers.

    A step tests only what the code tests: the flags, the lists, the offset, the
    reserve and the bits of the job's own page, and whether a frame, a slot or a
    reserve is on its free list.  Which page or job a taken frame or slot belongs
    to (`OfPage`, `OfJob`), and which job holds a page (`holder`), is written down
    for the proofs and never tested. */
module Protocol {
  import opened Machine
  import opened SwapIn
  import SC = SecondChance

  datatype Spot = InFrame(f: nat) | InSlot(d: nat)

  datatype Page = Page(
    migrating: bool,
    swappedOut: bool,
    spot: Spot,               // virtual_offset and in_dram
    reserve: Option<nat>,     // the slot of the reserve descriptor
    list: Option<Queue>,
    holder: Option<nat>)

  /** Where a search is: `hand` and `i` name the job that works for it. */
  datatype Stage =
    | AtFree
    | AtReclaim
    | AtScan(sweep: Sweep, hand: Option<nat>)
    | AtVictim
    | Evicting(i: nat)

  /** The counters of a reclaim, and of the shrinking of a list that goes on in it. */
  datatype Sweep = Sweep(toInactive: nat, toActive: nat, doneInactive: nat, doneActive: nat, reclaimed: nat, part: Part)

  datatype Part = Between | OnInactive(nr: nat, ret: nat, tries: nat) | OnActive(nr: nat, ret: nat)

  datatype Search = Search(priority: nat, stage: Stage)

  const PRIORITY: nat := 12

  datatype Job =
    // a first touch
    | WantFrame(va: nat, search: Search)
    | HasFrame(va: nat, f: nat)
    | Adding(va: nat)
    | Filled(va: nat)
    | Cleared(va: nat)
    // a page brought back, in a batch with those that the same thread reads
    | Claimed(va: nat, batch: nat)
    | Detached(va: nat, batch: nat)
    | Reading(va: nat, batch: nat, frame: Option<nat>, buffer: Option<Bytes>, search: Search)
    | Copied(va: nat, f: nat)
    // a page evicted, by a worker or for the search `whose`
    | Picked(va: nat, whose: Option<nat>)
    | Marked(va: nat, whose: Option<nat>)
    | Guarded(va: nat, whose: Option<nat>)
    | Sampled(va: nat, writeback: bool, whose: Option<nat>)
    | WithSlot(va: nat, d: nat, writeback: bool, whose: Option<nat>)
    | Written(va: nat, d: nat, whose: Option<nat>)
    | Gone(va: nat, d: nat, whose: Option<nat>)
    | Moved(va: nat, f: nat, whose: Option<nat>)
    | Flagged(va: nat, frame: Option<nat>, whose: Option<nat>)
    | Listed(va: nat, frame: Option<nat>, whose: Option<nat>)
    | Spare(f: nat, whose: Option<nat>)
    // a page looked at by a scan, of kswapd or for the search `whose`
    | Scanning(va: nat, whose: Option<nat>)
    | Seen(va: nat, how: Sighting, whose: Option<nat>)

  /** How a scan met a page: on the active list, or on the inactive list with its
      accessed bit set or clear. */
  datatype Sighting = WasActive | Hot | Cold

  predicate Sends(how: Sighting, to: Queue) {
    match how
    case WasActive => to == Inactive
    case Hot => to == Active || to == Inactive
    case Cold => to == Eviction
  }

  datatype Owner = Free | OfPage(va: nat) | OfJob(j: nat)

  datatype World = World(
    pages: map<nat, Page>,
    jobs: map<nat, Job>,
    ram: map<nat, Bytes>,
    dirty: set<nat>,
    accessed: set<nat>,
    protected: set<nat>,
    disk: map<nat, Bytes>,
    frames: map<nat, Owner>,
    slots: map<nat, Owner>)

  datatype Action =
    | Load(va: nat)
    | Store(va: nat, bytes: Bytes)
    | FaultNew(j: nat, va: nat)
    | TakeFrame(j: nat, f: nat)
    | MissFree(j: nat)
    | Reclaim(j: nat, skip: bool)
    | SweepOn(j: nat)
    | SweepTake(j: nat, k: nat, va: nat)
    | MissVictim(j: nat)
    | PickFor(j: nat, k: nat, va: nat)
    | CheckNew(j: nat)
    | FillZero(j: nat, bits: Bits)
    | Unmark(j: nat)
    | Track(j: nat)
    | Claim(j: nat, va: nat, batch: nat)
    | Unlist(j: nat)
    | Submit(j: nat)
    | Complete(j: nat)
    | CopyIn(j: nat, bits: Bits)
    | Publish(j: nat)
    | Pick(j: nat, va: nat)
    | Mark(j: nat)
    | Guard(j: nat)
    | Sample(j: nat)
    | TakeSlot(j: nat, d: nat)
    | WriteOut(j: nat)
    | Zap(j: nat)
    | Move(j: nat)
    | Flag(j: nat)
    | List(j: nat)
    | FreeFrame(j: nat)
    | Release(j: nat)
    | HandOver(j: nat)
    | ScanTake(j: nat, va: nat)
    | Look(j: nat)
    | ScanPut(j: nat, to: Queue)

  /** The two asserts that stand for a lack of room, and all others together with the
      kernel calls that must not fail. */
  datatype Failure = NoDiskPage | OutOfMemory | Broken

  /** `Blocked`: the thread waits, or finds nothing to do; `Crash`: an assertion fails. */
  datatype Outcome = Blocked | Crash(why: Failure) | Next(world: World, value: Option<Bytes>)

  function Go(s: World): Outcome {
    Next(s, None)
  }

  function Start(frames: set<nat>, disk: map<nat, Bytes>): World {
    World(map[], map[], map[], {}, {}, {}, disk, map f | f in frames :: Free, map d | d in disk :: Free)
  }

  // ----- the program -----

  function DoLoad(s: World, va: nat): Outcome {
    if va !in s.ram then Blocked else Next(s.(accessed := s.accessed + {va}), Some(s.ram[va]))
  }

  function DoStore(s: World, va: nat, bytes: Bytes): Outcome {
    if va !in s.ram || va in s.protected then Blocked
    else Go(s.(ram := s.ram[va := bytes], dirty := s.dirty + {va}, accessed := s.accessed + {va}))
  }

  // ----- jobs -----

  function SetPage(s: World, va: nat, p: Page): World {
    s.(pages := s.pages[va := p])
  }

  function SetJob(s: World, j: nat, job: Job): World {
    s.(jobs := s.jobs[j := job])
  }

  function EndJob(s: World, j: nat): World {
    s.(jobs := s.jobs - {j})
  }

  function SetFrame(s: World, f: nat, o: Owner): World {
    s.(frames := s.frames[f := o])
  }

  function SetSlot(s: World, d: nat, o: Owner): World {
    s.(slots := s.slots[d := o])
  }

  function Map(s: World, va: nat, bytes: Bytes, bits: Bits): World {
    s.(ram := s.ram[va := bytes], dirty := With(s.dirty, va, bits.dirty),
       accessed := With(s.accessed, va, bits.accessed), protected := s.protected - {va})
  }

  function IsFree(m: map<nat, Owner>, x: nat): bool {
    x in m && m[x].Free?
  }

  // ----- the first touch -----

  function DoFaultNew(s: World, j: nat, va: nat): Outcome {
    if j in s.jobs || va in s.pages then Blocked else Go(SetJob(s, j, WantFrame(va, Search(PRIORITY, AtFree))))
  }

  // ----- the search for a frame -----

  /** The job that `job` becomes with the frame it waits for. */
  function Supplied(job: Job, f: nat): Option<Job> {
    match job
    case WantFrame(va, _) => Some(HasFrame(va, f))
    case Reading(va, batch, None, buffer, search) => Some(Reading(va, batch, Some(f), buffer, search))
    case _ => None
  }

  predicate InBatch(job: Job, batch: nat) {
    (job.Claimed? || job.Detached? || job.Reading?) && job.batch == batch
  }

  predicate Starves(job: Job) {
    job.Reading? && job.frame.None?
  }

  /** Job `j` is the one its thread looks for a frame for: a batch is read as a whole
      first, and its frames are then found one after the other. */
  predicate Looks(s: World, j: nat) {
    && j in s.jobs
    && (s.jobs[j].WantFrame?
        || (Starves(s.jobs[j])
            && forall k {:trigger s.jobs[k]} :: k in s.jobs && InBatch(s.jobs[k], s.jobs[j].batch) ==>
                 s.jobs[k].Reading? && (Starves(s.jobs[k]) ==> j <= k)))
  }

  predicate LooksAt(s: World, j: nat, stage: Stage) {
    Looks(s, j) && s.jobs[j].search.stage == stage
  }

  function Supply(s: World, j: nat, f: nat): World
    requires j in s.jobs && Supplied(s.jobs[j], f).Some?
  {
    SetFrame(SetJob(s, j, Supplied(s.jobs[j], f).value), f, OfJob(j))
  }

  function DoTakeFrame(s: World, j: nat, f: nat): Outcome {
    if !LooksAt(s, j, AtFree) || !IsFree(s.frames, f) then Blocked else Go(Supply(s, j, f))
  }

  predicate Searches(job: Job) {
    job.WantFrame? || job.Reading?
  }

  function SetSearch(s: World, j: nat, search: Search): World
    requires j in s.jobs && Searches(s.jobs[j])
  {
    SetJob(s, j, s.jobs[j].(search := search))
  }

  function DoMissFree(s: World, j: nat): Outcome {
    if !LooksAt(s, j, AtFree) || (exists f | f in s.frames :: s.frames[f].Free?) then Blocked
    else Go(SetSearch(s, j, s.jobs[j].search.(stage := AtReclaim)))
  }

  function OnList(s: World, q: Queue): set<nat> {
    set va | va in s.pages && s.pages[va].list == Some(q)
  }

  /** More than half of DRAM is on the active and inactive lists. */
  predicate Plenty(s: World) {
    |OnList(s, Active)| + |OnList(s, Inactive)| > |s.frames| / 2
  }

  predicate Scanned(job: Job) {
    job.Scanning? || job.Seen?
  }

  /** Some thread is shrinking a list. */
  predicate Shrinking(s: World) {
    exists k | k in s.jobs :: Scanned(s.jobs[k])
      || (Searches(s.jobs[k]) && s.jobs[k].search.stage.AtScan? && s.jobs[k].search.stage.sweep.part != Between)
  }

  function StartSweep(s: World, priority: nat): Sweep {
    Sweep(ShiftRight(|OnList(s, Inactive)|, priority), ShiftRight(|OnList(s, Active)|, priority), 0, 0, 0, Between)
  }

  /** The reclaim counts the priority down; it is skipped while a list is shrunk. */
  function DoReclaim(s: World, j: nat, skip: bool): Outcome {
    if !LooksAt(s, j, AtReclaim) || (skip && !Shrinking(s)) then Blocked
    else
      var p := s.jobs[j].search.priority;
      Go(SetSearch(s, j, if !skip && Plenty(s) && p > 0 then Search(p - 1, AtScan(StartSweep(s, p), None))
                         else Search(p, AtVictim)))
  }

  datatype Turn = Over | Goes(sweep: Sweep) | Takes(q: Queue)

  /** What the reclaim does next, with that many pages on the two lists. */
  function NextTurn(w: Sweep, inactive: nat, active: nat): Turn {
    match w.part
    case Between =>
      if w.doneInactive < w.toInactive && w.reclaimed < SC.SWAP_CLUSTER_COUNT then
        Goes(w.(doneInactive := w.doneInactive + SC.SWAP_CLUSTER_COUNT, part := OnInactive(SC.Min(SC.SWAP_CLUSTER_COUNT, inactive), 0, 0)))
      else Over
    case OnInactive(nr, ret, tries) =>
      if ret < nr && inactive > 0 && tries < nr * 100 then Takes(Inactive)
      else if w.doneActive < w.toActive then
        Goes(w.(doneActive := w.doneActive + SC.SWAP_CLUSTER_COUNT, reclaimed := w.reclaimed + ret,
                part := OnActive(SC.Min(SC.SWAP_CLUSTER_COUNT, active), 0)))
      else Goes(w.(reclaimed := w.reclaimed + ret, part := Between))
    case OnActive(nr, ret) =>
      if ret < nr && active > 0 then Takes(Active) else Goes(w.(part := Between))
  }

  function TurnOf(s: World, w: Sweep): Turn {
    NextTurn(w, |OnList(s, Inactive)|, |OnList(s, Active)|)
  }

  /** A page that was taken has been put on the list `to`. */
  function Counted(w: Sweep, to: Queue): Sweep {
    match w.part
    case Between => w
    case OnInactive(nr, ret, tries) => w.(part := OnInactive(nr, if to == Eviction then ret + 1 else ret, tries + 1))
    case OnActive(nr, ret) => w.(part := OnActive(nr, ret + 1))
  }

  /** The search is in its reclaim, with no page in hand. */
  predicate Sweeps(s: World, j: nat) {
    Looks(s, j) && s.jobs[j].search.stage.AtScan? && s.jobs[j].search.stage.hand == None
  }

  function DoSweepOn(s: World, j: nat): Outcome {
    if !Sweeps(s, j) then Blocked
    else
      var Search(p, stage) := s.jobs[j].search;
      match TurnOf(s, stage.sweep)
      case Over => Go(SetSearch(s, j, Search(p, AtVictim)))
      case Goes(w) => Go(SetSearch(s, j, Search(p, AtScan(w, None))))
      case Takes(_) => Blocked
  }

  /** The page is taken off its list, and looked at as any scan does. */
  function DoSweepTake(s: World, j: nat, k: nat, va: nat): Outcome {
    if !Sweeps(s, j) then Blocked
    else
      var Search(p, stage) := s.jobs[j].search;
      var r := DoScanTake(s, k, va, Some(j));
      if !r.Next? || s.pages[va].list.None? || TurnOf(s, stage.sweep) != Takes(s.pages[va].list.value) then Blocked
      else Go(SetSearch(r.world, j, Search(p, AtScan(stage.sweep, Some(k)))))
  }

  /** The round has failed; with the last one the search has. */
  function DoMissVictim(s: World, j: nat): Outcome {
    if !LooksAt(s, j, AtVictim) || (exists va | va in s.pages :: s.pages[va].list == Some(Eviction)) then Blocked
    else if s.jobs[j].search.priority == 0 then Crash(OutOfMemory)
    else Go(SetSearch(s, j, s.jobs[j].search.(stage := AtFree)))
  }

  /** The thread evicts a page for itself. */
  function DoPickFor(s: World, j: nat, k: nat, va: nat): Outcome {
    if !LooksAt(s, j, AtVictim) then Blocked
    else
      var r := DoPick(s, k, va, Some(j));
      if !r.Next? then Blocked else Go(SetSearch(r.world, j, s.jobs[j].search.(stage := Evicting(k))))
  }

  /** The second look at the page table, under the lock. */
  function DoCheckNew(s: World, j: nat): Outcome {
    if j !in s.jobs || !s.jobs[j].HasFrame? then Blocked
    else
      var HasFrame(va, f) := s.jobs[j];
      if va in s.pages then Go(SetFrame(EndJob(s, j), f, Free))
      else Go(SetFrame(SetPage(SetJob(s, j, Adding(va)), va, Page(true, false, InFrame(f), None, None, Some(j))),
                       f, OfPage(va)))
  }

  function DoFillZero(s: World, j: nat, bits: Bits): Outcome {
    if j !in s.jobs || !s.jobs[j].Adding? then Blocked
    else
      var va := s.jobs[j].va;
      if va in s.ram then Crash(Broken) else Go(SetJob(Map(s, va, ZeroPage(), bits), j, Filled(va)))
  }

  function DoUnmark(s: World, j: nat): Outcome {
    if j !in s.jobs || !s.jobs[j].Filled? then Blocked
    else
      var va := s.jobs[j].va;
      if va !in s.pages then Crash(Broken)
      else Go(SetJob(SetPage(s, va, s.pages[va].(migrating := false, swappedOut := false)), j, Cleared(va)))
  }

  function DoTrack(s: World, j: nat): Outcome {
    if j !in s.jobs || !s.jobs[j].Cleared? then Blocked
    else
      var va := s.jobs[j].va;
      if va !in s.pages || s.pages[va].list.Some? then Crash(Broken)
      else Go(EndJob(SetPage(s, va, s.pages[va].(list := Some(Inactive), holder := None)), j))
  }

  // ----- a page is brought back -----

  /** A batch takes no more pages once one of them is being read. */
  function DoClaim(s: World, j: nat, va: nat, batch: nat): Outcome {
    if j in s.jobs || va !in s.pages || s.pages[va].migrating || !s.pages[va].swappedOut
       || (exists k | k in s.jobs :: InBatch(s.jobs[k], batch) && s.jobs[k].Reading?)
    then Blocked
    else Go(SetJob(SetPage(s, va, s.pages[va].(migrating := true, holder := Some(j))), j, Claimed(va, batch)))
  }

  function DoUnlist(s: World, j: nat): Outcome {
    if j !in s.jobs || !s.jobs[j].Claimed? then Blocked
    else
      var Claimed(va, batch) := s.jobs[j];
      if va !in s.pages || s.pages[va].list != Some(DiskActive) then Crash(Broken)
      else Go(SetJob(SetPage(s, va, s.pages[va].(list := None)), j, Detached(va, batch)))
  }

  function DoSubmit(s: World, j: nat): Outcome {
    if j !in s.jobs || !s.jobs[j].Detached? then Blocked
    else
      var Detached(va, batch) := s.jobs[j];
      Go(SetJob(s, j, Reading(va, batch, None, None, Search(PRIORITY, AtFree))))
  }

  /** The device fills the buffer with the slot the page lies in. */
  function DoComplete(s: World, j: nat): Outcome {
    if j !in s.jobs || !s.jobs[j].Reading? || s.jobs[j].buffer.Some? then Blocked
    else
      var va := s.jobs[j].va;
      if va !in s.pages || !s.pages[va].spot.InSlot? || s.pages[va].spot.d !in s.disk then Crash(Broken)
      else Go(SetJob(s, j, s.jobs[j].(buffer := Some(s.disk[s.pages[va].spot.d]))))
  }

  predicate Ready(job: Job) {
    job.Reading? && job.frame.Some? && job.buffer.Some?
  }

  predicate BatchReady(s: World, batch: nat) {
    forall k {:trigger s.jobs[k]} :: k in s.jobs && InBatch(s.jobs[k], batch) ==> Ready(s.jobs[k])
  }

  /** Pages are mapped once the whole batch has its frames and its bytes. */
  function DoCopyIn(s: World, j: nat, bits: Bits): Outcome {
    if j !in s.jobs || !s.jobs[j].Reading? || !BatchReady(s, s.jobs[j].batch) then Blocked
    else
      var Reading(va, _, frame, buffer, _) := s.jobs[j];
      if va in s.ram then Crash(Broken)
      else Go(SetJob(Map(s, va, buffer.value, bits), j, Copied(va, frame.value)))
  }

  function DoPublish(s: World, j: nat): Outcome {
    if j !in s.jobs || !s.jobs[j].Copied? then Blocked
    else
      var Copied(va, f) := s.jobs[j];
      if va !in s.pages then Crash(Broken)
      else
        var p := s.pages[va];
        if !p.swappedOut || !p.migrating || p.list.Some? || !p.spot.InSlot? then Crash(Broken)
        else Go(SetFrame(EndJob(SetPage(s, va,
               Page(false, false, InFrame(f), Some(p.spot.d), Some(Inactive), None)), j), f, OfPage(va)))
  }

  // ----- a page is evicted -----

  function DoPick(s: World, j: nat, va: nat, whose: Option<nat>): Outcome {
    if j in s.jobs || va !in s.pages || s.pages[va].list != Some(Eviction) then Blocked
    else Go(SetJob(SetPage(s, va, s.pages[va].(list := None, holder := Some(j))), j, Picked(va, whose)))
  }

  function DoMark(s: World, j: nat): Outcome {
    if j !in s.jobs || !s.jobs[j].Picked? then Blocked
    else
      var va := s.jobs[j].va;
      if va !in s.pages then Crash(Broken)
      else Go(SetJob(SetPage(s, va, s.pages[va].(migrating := true)), j, Marked(va, s.jobs[j].whose)))
  }

  function DoGuard(s: World, j: nat): Outcome {
    if j !in s.jobs || !s.jobs[j].Marked? then Blocked
    else
      var va := s.jobs[j].va;
      if va !in s.ram then Crash(Broken)
      else Go(SetJob(s.(protected := s.protected + {va}), j, Guarded(va, s.jobs[j].whose)))
  }

  function DoSample(s: World, j: nat): Outcome {
    if j !in s.jobs || !s.jobs[j].Guarded? then Blocked
    else
      var va := s.jobs[j].va;
      if va !in s.pages then Crash(Broken)
      else Go(SetJob(s, j, Sampled(va, va in s.dirty || s.pages[va].reserve.None?, s.jobs[j].whose)))
  }

  function DoTakeSlot(s: World, j: nat, d: nat): Outcome {
    if j !in s.jobs || !s.jobs[j].Sampled? then Blocked
    else
      var Sampled(va, writeback, whose) := s.jobs[j];
      if va !in s.pages then Crash(Broken)
      else
        match s.pages[va].reserve
        case Some(r) =>
          if r !in s.slots || s.slots[r].Free? then Crash(Broken)
          else if d != r then Blocked
          else Go(SetJob(s, j, WithSlot(va, d, writeback, whose)))
        case None =>
          if IsFree(s.slots, d) then Go(SetSlot(SetJob(s, j, WithSlot(va, d, writeback, whose)), d, OfJob(j)))
          else if exists x | x in s.slots :: s.slots[x].Free? then Blocked
          else Crash(NoDiskPage)
  }

  function DoWriteOut(s: World, j: nat): Outcome {
    if j !in s.jobs || !s.jobs[j].WithSlot? then Blocked
    else
      var WithSlot(va, d, writeback, whose) := s.jobs[j];
      if va !in s.pages || !s.pages[va].spot.InFrame? || va !in s.ram || d !in s.slots then Crash(Broken)
      else Go(SetJob(if writeback then s.(disk := s.disk[d := s.ram[va]]) else s, j, Written(va, d, whose)))
  }

  function DoZap(s: World, j: nat): Outcome {
    if j !in s.jobs || !s.jobs[j].Written? then Blocked
    else
      var Written(va, d, whose) := s.jobs[j];
      Go(SetJob(s.(ram := s.ram - {va}, dirty := s.dirty - {va}, accessed := s.accessed - {va},
                   protected := s.protected - {va}), j, Gone(va, d, whose)))
  }

  function DoMove(s: World, j: nat): Outcome {
    if j !in s.jobs || !s.jobs[j].Gone? then Blocked
    else
      var Gone(va, d, whose) := s.jobs[j];
      if va !in s.pages || !s.pages[va].spot.InFrame? || d !in s.slots then Crash(Broken)
      else
        var f := s.pages[va].spot.f;
        Go(SetSlot(SetFrame(SetJob(SetPage(s, va, s.pages[va].(spot := InSlot(d))), j, Moved(va, f, whose)),
                            f, OfJob(j)), d, OfPage(va)))
  }

  function DoFlag(s: World, j: nat): Outcome {
    if j !in s.jobs || !s.jobs[j].Moved? then Blocked
    else
      var Moved(va, f, whose) := s.jobs[j];
      if va !in s.pages || s.pages[va].swappedOut || !s.pages[va].migrating then Crash(Broken)
      else Go(SetJob(SetPage(s, va, s.pages[va].(swappedOut := true)), j, Flagged(va, Some(f), whose)))
  }

  function DoList(s: World, j: nat): Outcome {
    if j !in s.jobs || !s.jobs[j].Flagged? then Blocked
    else
      var Flagged(va, frame, whose) := s.jobs[j];
      if va !in s.pages then Crash(Broken)
      else Go(SetJob(SetPage(s, va, s.pages[va].(reserve := None, list := Some(DiskActive))), j, Listed(va, frame, whose)))
  }

  /** A worker returns the frame, before or after it lists the page. */
  function DoFreeFrame(s: World, j: nat): Outcome {
    if j !in s.jobs then Blocked
    else
      match s.jobs[j]
      case Flagged(va, Some(f), None) => Go(SetFrame(SetJob(s, j, Flagged(va, None, None)), f, Free))
      case Listed(va, Some(f), None) => Go(SetFrame(SetJob(s, j, Listed(va, None, None)), f, Free))
      case _ => Blocked
  }

  /** A worker has then returned the frame; a thread that evicted for itself keeps it. */
  function DoRelease(s: World, j: nat): Outcome {
    if j !in s.jobs || !s.jobs[j].Listed? || (s.jobs[j].whose.None? && s.jobs[j].frame.Some?) then Blocked
    else
      var Listed(va, frame, whose) := s.jobs[j];
      if va !in s.pages || !s.pages[va].migrating || !s.pages[va].swappedOut then Crash(Broken)
      else
        var t := SetPage(s, va, s.pages[va].(migrating := false, holder := None));
        Go(if frame.Some? then SetJob(t, j, Spare(frame.value, whose)) else EndJob(t, j))
  }

  function Dropped(s: World, j: nat): World
    requires j in s.jobs && s.jobs[j].Spare?
  {
    SetFrame(EndJob(s, j), s.jobs[j].f, Free)
  }

  /** The search goes on with the frame. */
  function DoHandOver(s: World, j: nat): Outcome {
    if j !in s.jobs || !s.jobs[j].Spare? || s.jobs[j].whose.None? then Blocked
    else
      var Spare(f, whose) := s.jobs[j];
      if whose.value == j || whose.value !in s.jobs || Supplied(s.jobs[whose.value], f).None? then Blocked
      else Go(Supply(Dropped(s, j), whose.value, f))
  }

  // ----- a page is scanned -----

  function DoScanTake(s: World, j: nat, va: nat, whose: Option<nat>): Outcome {
    if j in s.jobs || va !in s.pages || (s.pages[va].list != Some(Active) && s.pages[va].list != Some(Inactive))
    then Blocked
    else Go(SetJob(SetPage(s, va, s.pages[va].(list := None, holder := Some(j))), j,
                   if s.pages[va].list == Some(Active) then Seen(va, WasActive, whose) else Scanning(va, whose)))
  }

  function DoLook(s: World, j: nat): Outcome {
    if j !in s.jobs || !s.jobs[j].Scanning? then Blocked
    else
      var va := s.jobs[j].va;
      Go(SetJob(s.(accessed := s.accessed - {va}), j,
                Seen(va, if va in s.accessed then Hot else Cold, s.jobs[j].whose)))
  }

  /** The search that job `j` scanned for counts the page. */
  function Tell(s: World, whose: Option<nat>, j: nat, to: Queue): World {
    if whose.Some? && whose.value in s.jobs && Searches(s.jobs[whose.value])
       && s.jobs[whose.value].search.stage.AtScan? && s.jobs[whose.value].search.stage.hand == Some(j)
    then
      var Search(p, stage) := s.jobs[whose.value].search;
      SetSearch(s, whose.value, Search(p, AtScan(Counted(stage.sweep, to), None)))
    else s
  }

  function DoScanPut(s: World, j: nat, to: Queue): Outcome {
    if j !in s.jobs || !s.jobs[j].Seen? || !Sends(s.jobs[j].how, to) then Blocked
    else
      var va := s.jobs[j].va;
      if va !in s.pages then Crash(Broken)
      else Go(Tell(EndJob(SetPage(s, va, s.pages[va].(list := Some(to), holder := None)), j), s.jobs[j].whose, j, to))
  }

  // ----- runs -----

  function TouchStep(s: World, a: Action): Outcome {
    match a
    case Load(va) => DoLoad(s, va)
    case Store(va, bytes) => DoStore(s, va, bytes)
    case FaultNew(j, va) => DoFaultNew(s, j, va)
    case CheckNew(j) => DoCheckNew(s, j)
    case FillZero(j, bits) => DoFillZero(s, j, bits)
    case Unmark(j) => DoUnmark(s, j)
    case Track(j) => DoTrack(s, j)
    case _ => Blocked
  }

  function SearchStep(s: World, a: Action): Outcome {
    match a
    case TakeFrame(j, f) => DoTakeFrame(s, j, f)
    case MissFree(j) => DoMissFree(s, j)
    case Reclaim(j, skip) => DoReclaim(s, j, skip)
    case SweepOn(j) => DoSweepOn(s, j)
    case MissVictim(j) => DoMissVictim(s, j)
    case _ => Blocked
  }

  function BringStep(s: World, a: Action): Outcome {
    match a
    case Claim(j, va, batch) => DoClaim(s, j, va, batch)
    case Unlist(j) => DoUnlist(s, j)
    case Submit(j) => DoSubmit(s, j)
    case Complete(j) => DoComplete(s, j)
    case CopyIn(j, bits) => DoCopyIn(s, j, bits)
    case Publish(j) => DoPublish(s, j)
    case _ => Blocked
  }

  function WriteStep(s: World, a: Action): Outcome {
    match a
    case Pick(j, va) => DoPick(s, j, va, None)
    case PickFor(j, k, va) => DoPickFor(s, j, k, va)
    case Mark(j) => DoMark(s, j)
    case Guard(j) => DoGuard(s, j)
    case Sample(j) => DoSample(s, j)
    case TakeSlot(j, d) => DoTakeSlot(s, j, d)
    case WriteOut(j) => DoWriteOut(s, j)
    case Zap(j) => DoZap(s, j)
    case _ => Blocked
  }

  function RetireStep(s: World, a: Action): Outcome {
    match a
    case Move(j) => DoMove(s, j)
    case Flag(j) => DoFlag(s, j)
    case List(j) => DoList(s, j)
    case _ => Blocked
  }

  function ReturnStep(s: World, a: Action): Outcome {
    match a
    case FreeFrame(j) => DoFreeFrame(s, j)
    case Release(j) => DoRelease(s, j)
    case HandOver(j) => DoHandOver(s, j)
    case _ => Blocked
  }

  function ScanStep(s: World, a: Action): Outcome {
    match a
    case ScanTake(j, va) => DoScanTake(s, j, va, None)
    case SweepTake(j, k, va) => DoSweepTake(s, j, k, va)
    case Look(j) => DoLook(s, j)
    case ScanPut(j, to) => DoScanPut(s, j, to)
    case _ => Blocked
  }

  datatype Kind = Touching | Searching | Bringing | Writing | Retiring | Returning | Scans

  function KindOf(a: Action): Kind {
    if a.ScanTake? || a.SweepTake? || a.Look? || a.ScanPut? then Scans
    else if a.FreeFrame? || a.Release? || a.HandOver? then Returning
    else if a.Move? || a.Flag? || a.List? then Retiring
    else if a.Pick? || a.PickFor? || a.Mark? || a.Guard? || a.Sample? || a.TakeSlot? || a.WriteOut? || a.Zap? then Writing
    else if a.Claim? || a.Unlist? || a.Submit? || a.Complete? || a.CopyIn? || a.Publish? then Bringing
    else if a.TakeFrame? || a.MissFree? || a.Reclaim? || a.SweepOn? || a.MissVictim? then Searching
    else Touching
  }

  function Step(s: World, a: Action): Outcome {
    match KindOf(a)
    case Touching => TouchStep(s, a)
    case Searching => SearchStep(s, a)
    case Bringing => BringStep(s, a)
    case Writing => WriteStep(s, a)
    case Retiring => RetireStep(s, a)
    case Returning => ReturnStep(s, a)
    case Scans => ScanStep(s, a)
  }

  /** The run `as` from `s`, newest step last; a crash or a blocked step ends it. */
  function Run(s: World, steps: seq<Action>): Outcome {
    if steps == [] then Go(s)
    else
      var r := Run(s, steps[..|steps| - 1]);
      if r.Next? then Step(r.world, steps[|steps| - 1]) else r
  }
}
