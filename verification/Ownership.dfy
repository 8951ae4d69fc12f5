/** What every step of the protocol keeps: each page in transition belongs to one
    job, each frame and slot to one page or job, and the page is as that job
    expects it. */
module Ownership {
  import opened Machine
  import opened SwapIn
  import opened Protocol

  // ----- what a job holds -----

  function Holds(job: Job): Option<nat> {
    match job
    case WantFrame(_, _) => None
    case HasFrame(_, _) => None
    case Spare(_, _) => None
    case _ => Some(job.va)
  }

  function FrameOf(job: Job): Option<nat> {
    match job
    case HasFrame(_, f) => Some(f)
    case Reading(_, _, frame, _, _) => frame
    case Copied(_, f) => Some(f)
    case Moved(_, f, _) => Some(f)
    case Flagged(_, frame, _) => frame
    case Listed(_, frame, _) => frame
    case Spare(f, _) => Some(f)
    case _ => None
  }

  function SlotOf(job: Job): Option<nat> {
    match job
    case WithSlot(_, d, _, _) => Some(d)
    case Written(_, d, _) => Some(d)
    case Gone(_, d, _) => Some(d)
    case _ => None
  }

  // ----- the invariant -----

  predicate Only(o: Option<nat>, x: nat) {
    o.Some? ==> o.value == x
  }

  /** The slot `d` holds what was last stored in the page. */
  ghost predicate Saved(s: World, truth: map<nat, Bytes>, va: nat, d: nat) {
    d in s.disk && va in truth && s.disk[d] == truth[va]
  }

  ghost predicate OnDisk(s: World, truth: map<nat, Bytes>, va: nat, p: Page) {
    p.spot.InSlot? && va !in s.ram && Saved(s, truth, va, p.spot.d)
  }

  ghost predicate InMemory(s: World, va: nat, p: Page, guarded: bool) {
    !p.swappedOut && p.spot.InFrame? && va in s.ram && (va in s.protected) == guarded
  }

  /** A page that no job holds. */
  ghost predicate Rests(s: World, truth: map<nat, Bytes>, va: nat, p: Page) {
    && !p.migrating
    && (if p.swappedOut then OnDisk(s, truth, va, p) && p.reserve == None && p.list == Some(DiskActive)
        else InMemory(s, va, p, false) && (p.list == Some(Active) || p.list == Some(Inactive) || p.list == Some(Eviction)))
  }

  /** A page that `job` holds. */
  ghost predicate Suits(s: World, truth: map<nat, Bytes>, va: nat, p: Page, job: Job) {
    match job
    case Adding(_) =>
      p.migrating && !p.swappedOut && p.spot.InFrame? && p.reserve == None && p.list == None
      && va !in s.ram && va in truth && truth[va] == ZeroPage()
    case Filled(_) => p.migrating && InMemory(s, va, p, false) && p.reserve == None && p.list == None
    case Cleared(_) => !p.migrating && InMemory(s, va, p, false) && p.reserve == None && p.list == None
    case Claimed(_, _) =>
      p.migrating && p.swappedOut && OnDisk(s, truth, va, p) && p.reserve == None && p.list == Some(DiskActive)
    case Detached(_, _) => p.migrating && p.swappedOut && OnDisk(s, truth, va, p) && p.reserve == None && p.list == None
    case Reading(_, _, _, buffer, _) =>
      p.migrating && p.swappedOut && OnDisk(s, truth, va, p) && p.reserve == None && p.list == None
      && (buffer.Some? ==> buffer.value == truth[va])
    case Copied(_, _) =>
      p.migrating && p.swappedOut && p.spot.InSlot? && p.reserve == None && p.list == None
      && va in s.ram && va !in s.protected && (va !in s.dirty ==> Saved(s, truth, va, p.spot.d))
    case Picked(_, _) => !p.migrating && InMemory(s, va, p, false) && p.list == None
    case Marked(_, _) => p.migrating && InMemory(s, va, p, false) && p.list == None
    case Guarded(_, _) => p.migrating && InMemory(s, va, p, true) && p.list == None
    case Sampled(_, writeback, _) =>
      p.migrating && InMemory(s, va, p, true) && p.list == None
      && (!writeback ==> p.reserve.Some? && Saved(s, truth, va, p.reserve.value))
    case WithSlot(_, d, writeback, _) =>
      p.migrating && InMemory(s, va, p, true) && p.list == None && Only(p.reserve, d)
      && (!writeback ==> Saved(s, truth, va, d))
    case Written(_, d, _) =>
      p.migrating && InMemory(s, va, p, true) && p.list == None && Only(p.reserve, d)
      && Saved(s, truth, va, d)
    case Gone(_, d, _) =>
      p.migrating && !p.swappedOut && p.spot.InFrame? && p.list == None && Only(p.reserve, d)
      && va !in s.ram && Saved(s, truth, va, d)
    case Moved(_, _, _) =>
      p.migrating && !p.swappedOut && OnDisk(s, truth, va, p) && p.list == None
      && Only(p.reserve, p.spot.d)
    case Flagged(_, frame, whose) =>
      p.migrating && p.swappedOut && OnDisk(s, truth, va, p) && p.list == None && Only(p.reserve, p.spot.d)
      && (whose.Some? ==> frame.Some?)
    case Listed(_, frame, whose) =>
      p.migrating && p.swappedOut && OnDisk(s, truth, va, p) && p.list == Some(DiskActive) && p.reserve == None
      && (whose.Some? ==> frame.Some?)
    case Scanning(_, _) => !p.migrating && InMemory(s, va, p, false) && p.list == None
    case Seen(_, _, _) => !p.migrating && InMemory(s, va, p, false) && p.list == None
    case _ => false
  }

  ghost predicate PageOk(s: World, truth: map<nat, Bytes>, va: nat)
    requires va in s.pages
  {
    var p := s.pages[va];
    && va in truth
    && (p.spot.InFrame? ==> p.spot.f in s.frames && s.frames[p.spot.f] == OfPage(va))
    && (p.spot.InSlot? ==> p.spot.d in s.slots && s.slots[p.spot.d] == OfPage(va))
    && (p.reserve.Some? ==> p.reserve.value in s.slots && s.slots[p.reserve.value] == OfPage(va))
    && (va in s.ram ==> s.ram[va] == truth[va])
    && (va in s.ram && va !in s.dirty && p.reserve.Some? ==> Saved(s, truth, va, p.reserve.value))
    && (p.holder.None? ==> Rests(s, truth, va, p))
    && (p.holder.Some? ==>
          && p.holder.value in s.jobs
          && Holds(s.jobs[p.holder.value]) == Some(va)
          && Suits(s, truth, va, p, s.jobs[p.holder.value]))
  }

  ghost predicate JobOk(s: World, j: nat)
    requires j in s.jobs
  {
    var job := s.jobs[j];
    && (Holds(job).Some? ==> Holds(job).value in s.pages && s.pages[Holds(job).value].holder == Some(j))
    && (FrameOf(job).Some? ==> FrameOf(job).value in s.frames && s.frames[FrameOf(job).value] == OfJob(j))
    && (SlotOf(job).Some? && Holds(job).Some? && Holds(job).value in s.pages ==>
          SlotOf(job).value in s.slots
          && s.slots[SlotOf(job).value] ==
             if s.pages[Holds(job).value].reserve.Some? then OfPage(Holds(job).value) else OfJob(j))
  }

  ghost predicate FrameOk(s: World, f: nat)
    requires f in s.frames
  {
    match s.frames[f]
    case Free => true
    case OfPage(va) => va in s.pages && s.pages[va].spot == InFrame(f)
    case OfJob(j) => j in s.jobs && FrameOf(s.jobs[j]) == Some(f)
  }

  ghost predicate SlotOk(s: World, d: nat)
    requires d in s.slots
  {
    d in s.disk &&
    match s.slots[d]
    case Free => true
    case OfPage(va) => va in s.pages && (s.pages[va].spot == InSlot(d) || s.pages[va].reserve == Some(d))
    case OfJob(j) => j in s.jobs && SlotOf(s.jobs[j]) == Some(d)
  }

  /** `truth` is what was last stored in each page that was ever touched. */
  ghost predicate Sound(s: World, truth: map<nat, Bytes>) {
    && (forall va {:trigger PageOk(s, truth, va)} :: va in s.pages ==> PageOk(s, truth, va))
    && (forall j {:trigger JobOk(s, j)} :: j in s.jobs ==> JobOk(s, j))
    && (forall f {:trigger FrameOk(s, f)} :: f in s.frames ==> FrameOk(s, f))
    && (forall d {:trigger SlotOk(s, d)} :: d in s.slots ==> SlotOk(s, d))
    && s.ram.Keys <= s.pages.Keys && s.dirty <= s.ram.Keys && s.protected <= s.ram.Keys
    && truth.Keys == s.pages.Keys
  }

  lemma StartSound(frames: set<nat>, disk: map<nat, Bytes>)
    ensures Sound(Start(frames, disk), map[])
  {}

  // ----- a step touches one page and one job -----

  /** The owner `o` may be changed by a step of job `j` on page `va`. */
  predicate Mine(o: Owner, va: nat, j: Option<nat>) {
    o == Free || o == OfPage(va) || (j.Some? && o == OfJob(j.value))
  }

  ghost predicate Local(s: World, t: World, va: nat, j: Option<nat>) {
    && (forall v {:trigger v in t.pages} {:trigger v in s.pages} :: v != va ==>
          (v in t.pages <==> v in s.pages) && (v in s.pages ==> t.pages[v] == s.pages[v]))
    && (forall v {:trigger v in t.ram} {:trigger v in s.ram} :: v != va ==>
          (v in t.ram <==> v in s.ram) && (v in s.ram ==> t.ram[v] == s.ram[v]))
    && (forall v {:trigger v in t.dirty} :: v != va ==> (v in t.dirty <==> v in s.dirty))
    && (forall v {:trigger v in t.protected} :: v != va ==> (v in t.protected <==> v in s.protected))
    && (forall k {:trigger k in t.jobs} {:trigger k in s.jobs} :: Some(k) != j ==>
          (k in t.jobs <==> k in s.jobs) && (k in s.jobs ==> t.jobs[k] == s.jobs[k]))
    && t.frames.Keys == s.frames.Keys && t.slots.Keys == s.slots.Keys && t.disk.Keys == s.disk.Keys
    && (forall f {:trigger t.frames[f]} :: f in s.frames && t.frames[f] != s.frames[f] ==>
          Mine(s.frames[f], va, j) && Mine(t.frames[f], va, j))
    && (forall d {:trigger t.slots[d]} :: d in s.slots && t.slots[d] != s.slots[d] ==>
          Mine(s.slots[d], va, j) && Mine(t.slots[d], va, j))
    && (forall d {:trigger t.disk[d]} :: d in s.slots && d in s.disk && t.disk[d] != s.disk[d] ==>
          Mine(s.slots[d], va, j))
    && (j.Some? && j.value in s.jobs ==> Only(Holds(s.jobs[j.value]), va))
  }

  /** The page, the job, and the frames and slots they have are well. */
  ghost predicate Own(s: World, t: World, truth: map<nat, Bytes>, va: nat, j: Option<nat>) {
    && (va in t.pages ==> PageOk(t, truth, va))
    && (j.Some? && j.value in t.jobs ==> JobOk(t, j.value))
    && (forall f {:trigger FrameOk(t, f)} ::
          f in t.frames && f in s.frames && FrameOk(s, f) && Mine(t.frames[f], va, j) ==> FrameOk(t, f))
    && (forall d {:trigger SlotOk(t, d)} ::
          d in t.slots && d in s.slots && SlotOk(s, d) && Mine(t.slots[d], va, j) ==> SlotOk(t, d))
    && t.ram.Keys <= t.pages.Keys && t.dirty <= t.ram.Keys && t.protected <= t.ram.Keys
  }

  ghost predicate SameTruth(truth: map<nat, Bytes>, after: map<nat, Bytes>, va: nat, t: World) {
    && after.Keys == t.pages.Keys
    && (forall v {:trigger after[v]} :: v in truth && v != va ==> v in after && after[v] == truth[v])
  }

  /** What the predicates on the page `v` read is the same in both worlds. */
  ghost predicate SameView(s: World, truth: map<nat, Bytes>, t: World, after: map<nat, Bytes>, v: nat) {
    && v in truth && v in after && after[v] == truth[v]
    && (v in t.ram <==> v in s.ram) && (v in s.ram ==> t.ram[v] == s.ram[v])
    && (v in t.dirty <==> v in s.dirty) && (v in t.protected <==> v in s.protected)
    && v in s.pages && v in t.pages && t.pages[v] == s.pages[v]
  }

  lemma OtherSaved(s: World, truth: map<nat, Bytes>, t: World, after: map<nat, Bytes>, va: nat, j: Option<nat>, v: nat, d: nat)
    requires Local(s, t, va, j) && SameView(s, truth, t, after, v) && v != va
    requires d in s.slots && SlotOk(s, d) && !Mine(s.slots[d], va, j)
    ensures Saved(t, after, v, d) == Saved(s, truth, v, d)
  {}

  /** The slots the page `v` or its job may look at are not changed by another job. */
  lemma OthersSlot(s: World, truth: map<nat, Bytes>, va: nat, j: Option<nat>, v: nat, d: nat)
    requires v in s.pages && v != va && PageOk(s, truth, v)
    requires s.pages[v].holder.Some? ==> JobOk(s, s.pages[v].holder.value) && s.pages[v].holder != j
    requires || (s.pages[v].spot.InSlot? && s.pages[v].spot.d == d)
             || s.pages[v].reserve == Some(d)
             || (s.pages[v].holder.Some? && SlotOf(s.jobs[s.pages[v].holder.value]) == Some(d))
    ensures d in s.slots && !Mine(s.slots[d], va, j)
  {
    hide Suits, Rests;
  }

  lemma OtherSuits(s: World, truth: map<nat, Bytes>, t: World, after: map<nat, Bytes>, va: nat, j: Option<nat>, v: nat)
    requires Local(s, t, va, j) && SameView(s, truth, t, after, v) && v != va
    requires PageOk(s, truth, v) && s.pages[v].holder.Some? && JobOk(s, s.pages[v].holder.value)
    requires s.pages[v].holder != j
    requires forall d {:trigger SlotOk(s, d)} :: d in s.slots ==> SlotOk(s, d)
    ensures Suits(t, after, v, t.pages[v], s.jobs[s.pages[v].holder.value])
  {
    hide SlotOk, JobOk, Local, Saved;
    var p := s.pages[v];
    var job := s.jobs[p.holder.value];
    forall d: nat | (p.spot.InSlot? && p.spot.d == d) || p.reserve == Some(d) || SlotOf(job) == Some(d)
      ensures Saved(t, after, v, d) == Saved(s, truth, v, d)
    {
      OthersSlot(s, truth, va, j, v, d);
      assert SlotOk(s, d);
      OtherSaved(s, truth, t, after, va, j, v, d);
    }
  }

  lemma OtherPage(s: World, truth: map<nat, Bytes>, t: World, after: map<nat, Bytes>, va: nat, j: Option<nat>, v: nat)
    requires Sound(s, truth) && Local(s, t, va, j) && SameTruth(truth, after, va, t)
    requires v in t.pages && v != va
    ensures PageOk(t, after, v)
  {
    hide Suits, JobOk, FrameOk;
    assert PageOk(s, truth, v);
    assert SameView(s, truth, t, after, v);
    if s.pages[v].holder.Some? {
      assert JobOk(s, s.pages[v].holder.value);
      OtherSuits(s, truth, t, after, va, j, v);
    }
  }

  lemma OtherJob(s: World, truth: map<nat, Bytes>, t: World, va: nat, j: Option<nat>, k: nat)
    requires Sound(s, truth) && Local(s, t, va, j)
    requires k in t.jobs && Some(k) != j
    requires va in s.pages && s.pages[va].holder == Some(k) ==>
               va in t.pages && t.pages[va].holder == Some(k) && t.pages[va].reserve == s.pages[va].reserve
    requires va in s.pages && s.pages[va].holder == Some(k) ==> t.slots == s.slots
    ensures JobOk(t, k)
  {
    assert JobOk(s, k);
  }

  lemma LocalKeeps(s: World, truth: map<nat, Bytes>, t: World, after: map<nat, Bytes>, va: nat, j: Option<nat>)
    requires Sound(s, truth) && Local(s, t, va, j) && SameTruth(truth, after, va, t) && Own(s, t, after, va, j)
    requires forall k :: va in s.pages && s.pages[va].holder == Some(k) && Some(k) != j ==>
               va in t.pages && t.pages[va].holder == Some(k) && t.pages[va].reserve == s.pages[va].reserve
               && t.slots == s.slots
    ensures Sound(t, after)
  {
    hide PageOk, JobOk;
    forall v | v in t.pages ensures PageOk(t, after, v) {
      if v != va { OtherPage(s, truth, t, after, va, j, v); }
    }
    forall k | k in t.jobs ensures JobOk(t, k) {
      if Some(k) != j { OtherJob(s, truth, t, va, j, k); }
    }
    forall f | f in t.frames ensures FrameOk(t, f) {
      assert FrameOk(s, f);
    }
    forall d | d in t.slots ensures SlotOk(t, d) {
      assert SlotOk(s, d);
    }
  }

  // ----- most steps change no owner -----

  function HoldsAt(s: World, j: nat): Option<nat> {
    if j in s.jobs then Holds(s.jobs[j]) else None
  }

  function FrameAt(s: World, j: nat): Option<nat> {
    if j in s.jobs then FrameOf(s.jobs[j]) else None
  }

  function SlotAt(s: World, j: nat): Option<nat> {
    if j in s.jobs then SlotOf(s.jobs[j]) else None
  }

  /** Outside the page `va` nothing that is mapped differs. */
  ghost predicate SameElsewhere(s: World, t: World, va: nat) {
    && (forall v {:trigger v in t.ram} {:trigger v in s.ram} :: v != va ==>
          (v in t.ram <==> v in s.ram) && (v in s.ram ==> t.ram[v] == s.ram[v]))
    && (forall v {:trigger v in t.dirty} :: v != va ==> (v in t.dirty <==> v in s.dirty))
    && (forall v {:trigger v in t.protected} :: v != va ==> (v in t.protected <==> v in s.protected))
    && (va !in t.ram ==> va !in t.dirty && va !in t.protected)
  }

  /** Job `j` changes flags, list, bits and contents of page `va`, and its own state. */
  ghost predicate Quiet(s: World, t: World, va: nat, j: nat) {
    && va in s.pages && va in t.pages && t.pages == s.pages[va := t.pages[va]]
    && t.pages[va].spot == s.pages[va].spot
    && (t.pages[va].reserve == s.pages[va].reserve
        || (t.pages[va].reserve == None && s.pages[va].spot == InSlot(s.pages[va].reserve.value)))
    && s.pages[va].holder == (if HoldsAt(s, j) == Some(va) then Some(j) else None)
    && t.pages[va].holder == (if HoldsAt(t, j) == Some(va) then Some(j) else None)
    && Only(HoldsAt(s, j), va) && Only(HoldsAt(t, j), va)
    && (forall k {:trigger k in t.jobs} {:trigger k in s.jobs} :: k != j ==>
          (k in t.jobs <==> k in s.jobs) && (k in s.jobs ==> t.jobs[k] == s.jobs[k]))
    && t.frames == s.frames && t.slots == s.slots
    && FrameAt(t, j) == FrameAt(s, j) && (SlotAt(s, j).Some? ==> SlotAt(t, j) == SlotAt(s, j))
    && SameElsewhere(s, t, va)
    && t.disk.Keys == s.disk.Keys
    && (forall d {:trigger t.disk[d]} :: d in s.disk && SlotAt(s, j) != Some(d) ==> t.disk[d] == s.disk[d])
  }

  lemma QuietFrame(s: World, t: World, va: nat, j: nat, f: nat)
    requires Quiet(s, t, va, j) && f in s.frames && FrameOk(s, f)
    ensures FrameOk(t, f)
  {
    hide SameElsewhere;
  }

  lemma QuietSlot(s: World, t: World, va: nat, j: nat, d: nat)
    requires Quiet(s, t, va, j) && d in s.slots && SlotOk(s, d)
    ensures SlotOk(t, d)
  {
    hide SameElsewhere;
  }

  lemma QuietLocal(s: World, truth: map<nat, Bytes>, t: World, va: nat, j: nat)
    requires Sound(s, truth) && Quiet(s, t, va, j)
    ensures Local(s, t, va, Some(j))
  {
    hide PageOk, FrameOk;
    assert j in s.jobs ==> JobOk(s, j);
  }

  lemma QuietKeeps(s: World, truth: map<nat, Bytes>, t: World, va: nat, j: nat)
    requires Sound(s, truth) && Quiet(s, t, va, j) && PageOk(t, truth, va)
    requires j in t.jobs ==> JobOk(t, j)
    ensures Sound(t, truth)
  {
    hide PageOk, JobOk, FrameOk, SlotOk, Local;
    QuietLocal(s, truth, t, va, j);
    forall f | f in t.frames ensures FrameOk(t, f) { QuietFrame(s, t, va, j, f); }
    forall d | d in t.slots ensures SlotOk(t, d) { QuietSlot(s, t, va, j, d); }
    LocalKeeps(s, truth, t, truth, va, Some(j));
  }

  // ----- a step that only turns flags and lists -----

  function Turned(s: World, va: nat, p: Page, j: nat, job: Option<Job>): World {
    if job.Some? then SetJob(SetPage(s, va, p), j, job.value) else EndJob(SetPage(s, va, p), j)
  }

  lemma TurnedQuiet(s: World, truth: map<nat, Bytes>, va: nat, p: Page, j: nat, job: Option<Job>)
    requires Sound(s, truth) && va in s.pages && p.spot == s.pages[va].spot
    requires p.reserve == s.pages[va].reserve || (p.reserve == None && p.spot == InSlot(s.pages[va].reserve.value))
    requires if j in s.jobs then Holds(s.jobs[j]) == Some(va) else s.pages[va].holder == None
    requires job.Some? && Holds(job.value).Some? ==> Holds(job.value) == Some(va)
    requires p.holder == if job.Some? && Holds(job.value).Some? then Some(j) else None
    requires FrameAt(s, j) == if job.Some? then FrameOf(job.value) else None
    requires SlotAt(s, j) == None && (job.Some? ==> SlotOf(job.value) == None)
    ensures Quiet(s, Turned(s, va, p, j, job), va, j)
    ensures j in Turned(s, va, p, j, job).jobs ==> JobOk(Turned(s, va, p, j, job), j)
  {
    hide PageOk;
    assert j in s.jobs ==> JobOk(s, j);
  }

  lemma TurnedPage(s: World, truth: map<nat, Bytes>, va: nat, p: Page, j: nat, job: Option<Job>)
    requires va in s.pages && PageOk(s, truth, va) && p.spot == s.pages[va].spot && va in truth
    requires p.reserve == s.pages[va].reserve || p.reserve == None
    requires p.holder == if job.Some? && Holds(job.value).Some? then Some(j) else None
    requires job.Some? && Holds(job.value).Some? ==> Holds(job.value) == Some(va)
    requires if p.holder.Some? then Suits(s, truth, va, p, job.value) else Rests(s, truth, va, p)
    ensures PageOk(Turned(s, va, p, j, job), truth, va)
  {}

  lemma TurnedKeeps(s: World, truth: map<nat, Bytes>, va: nat, p: Page, j: nat, job: Option<Job>)
    requires Sound(s, truth) && va in s.pages && p.spot == s.pages[va].spot
    requires p.reserve == s.pages[va].reserve || (p.reserve == None && p.spot == InSlot(s.pages[va].reserve.value))
    requires if j in s.jobs then Holds(s.jobs[j]) == Some(va) else s.pages[va].holder == None
    requires job.Some? && Holds(job.value).Some? ==> Holds(job.value) == Some(va)
    requires p.holder == if job.Some? && Holds(job.value).Some? then Some(j) else None
    requires FrameAt(s, j) == if job.Some? then FrameOf(job.value) else None
    requires SlotAt(s, j) == None && (job.Some? ==> SlotOf(job.value) == None)
    requires if p.holder.Some? then Suits(s, truth, va, p, job.value) else Rests(s, truth, va, p)
    ensures Sound(Turned(s, va, p, j, job), truth)
  {
    hide Quiet, PageOk, Suits, Rests, JobOk;
    var t := Turned(s, va, p, j, job);
    TurnedQuiet(s, truth, va, p, j, job);
    assert PageOk(s, truth, va);
    TurnedPage(s, truth, va, p, j, job);
    QuietKeeps(s, truth, t, va, j);
  }

  // ----- a step that only changes what is mapped and stored -----

  /** `m` differs from `s` in the contents and bits of `va`, and in the slot of job `j`. */
  ghost predicate Touched(s: World, m: World, va: nat, j: nat) {
    && m.pages == s.pages && m.jobs == s.jobs && m.frames == s.frames && m.slots == s.slots
    && SameElsewhere(s, m, va)
    && m.disk.Keys == s.disk.Keys
    && (forall d {:trigger m.disk[d]} :: d in s.disk && SlotAt(s, j) != Some(d) ==> m.disk[d] == s.disk[d])
  }

  lemma TouchedQuiet(s: World, truth: map<nat, Bytes>, m: World, va: nat, j: nat, job: Job)
    requires Sound(s, truth) && Touched(s, m, va, j)
    requires j in s.jobs && Holds(s.jobs[j]) == Some(va) && Holds(job) == Some(va)
    requires FrameOf(job) == FrameOf(s.jobs[j]) && SlotOf(job) == SlotOf(s.jobs[j])
    ensures Quiet(s, SetJob(m, j, job), va, j)
    ensures JobOk(SetJob(m, j, job), j)
  {
    hide PageOk;
    assert JobOk(s, j);
  }

  lemma TouchedKeeps(s: World, truth: map<nat, Bytes>, m: World, va: nat, j: nat, job: Job)
    requires Sound(s, truth) && Touched(s, m, va, j)
    requires j in s.jobs && Holds(s.jobs[j]) == Some(va) && Holds(job) == Some(va)
    requires FrameOf(job) == FrameOf(s.jobs[j]) && SlotOf(job) == SlotOf(s.jobs[j])
    requires va in s.pages && va in truth && Suits(m, truth, va, s.pages[va], job)
    requires va in m.ram ==> m.ram[va] == truth[va]
    requires va in m.ram && va !in m.dirty && s.pages[va].reserve.Some? ==>
               Saved(m, truth, va, s.pages[va].reserve.value)
    ensures Sound(SetJob(m, j, job), truth)
  {
    hide Quiet, SameElsewhere;
    var t := SetJob(m, j, job);
    TouchedQuiet(s, truth, m, va, j, job);
    assert PageOk(s, truth, va) && JobOk(s, j);
    assert PageOk(t, truth, va);
    QuietKeeps(s, truth, t, va, j);
  }

  // ----- a step that only hands out or returns a frame -----

  /** Job `j`, which holds no page before or after, or the same page as before in the
      same way, takes or gives up a frame. */
  ghost predicate FrameOnly(s: World, t: World, j: nat) {
    && t == s.(jobs := t.jobs, frames := t.frames)
    && t.jobs - {j} == s.jobs - {j} && (forall k {:trigger k in t.jobs} :: k != j ==> (k in t.jobs <==> k in s.jobs))
    && HoldsAt(t, j) == HoldsAt(s, j) && SlotAt(t, j) == SlotAt(s, j)
    && t.frames.Keys == s.frames.Keys
    && (forall f {:trigger t.frames[f]} :: f in s.frames && t.frames[f] != s.frames[f] ==>
          (s.frames[f] == Free || s.frames[f] == OfJob(j)) && (t.frames[f] == Free || t.frames[f] == OfJob(j)))
    && (forall f {:trigger t.frames[f]} :: f in t.frames ==> (t.frames[f] == OfJob(j) <==> FrameAt(t, j) == Some(f)))
    && (FrameAt(t, j).Some? ==> FrameAt(t, j).value in t.frames)
  }

  lemma FrameOnlyPage(s: World, truth: map<nat, Bytes>, t: World, j: nat, va: nat)
    requires FrameOnly(s, t, j) && va in s.pages && PageOk(s, truth, va)
    requires HoldsAt(s, j) == Some(va) ==> Suits(s, truth, va, s.pages[va], t.jobs[j])
    ensures PageOk(t, truth, va)
  {
    var p := s.pages[va];
    if p.holder.Some? && p.holder.value != j {
      assert (t.jobs - {j})[p.holder.value] == (s.jobs - {j})[p.holder.value];
    }
  }

  lemma FrameOnlyKeeps(s: World, truth: map<nat, Bytes>, t: World, j: nat)
    requires Sound(s, truth) && FrameOnly(s, t, j)
    requires HoldsAt(s, j).Some? && HoldsAt(s, j).value in s.pages ==>
               j in t.jobs && Suits(s, truth, HoldsAt(s, j).value, s.pages[HoldsAt(s, j).value], t.jobs[j])
    ensures Sound(t, truth)
  {
    hide PageOk;
    assert j in s.jobs ==> JobOk(s, j);
    forall va | va in t.pages ensures PageOk(t, truth, va) {
      assert PageOk(s, truth, va);
      FrameOnlyPage(s, truth, t, j, va);
    }
    forall k | k in t.jobs ensures JobOk(t, k) {
      if k != j {
        assert (t.jobs - {j})[k] == (s.jobs - {j})[k];
        assert JobOk(s, k);
      }
    }
    forall f | f in t.frames ensures FrameOk(t, f) {
      assert FrameOk(s, f);
      if t.frames[f].OfJob? && t.frames[f].j != j {
        assert (t.jobs - {j})[t.frames[f].j] == (s.jobs - {j})[t.frames[f].j];
      }
    }
    forall d | d in t.slots ensures SlotOk(t, d) {
      assert SlotOk(s, d);
      if s.slots[d].OfJob? && s.slots[d].j != j {
        assert (t.jobs - {j})[s.slots[d].j] == (s.jobs - {j})[s.slots[d].j];
      }
    }
  }

  // ----- a step that changes whose a frame or a slot is -----

  /** Job `j` and page `va` change, and so do the owners of what they had or was free. */
  ghost predicate Rehomed(s: World, t: World, va: nat, j: nat) {
    && t == s.(pages := t.pages, jobs := t.jobs, frames := t.frames, slots := t.slots)
    && va in t.pages && t.pages == s.pages[va := t.pages[va]]
    && (va in s.pages ==> s.pages[va].holder == Some(j))
    && j in s.jobs && Only(Holds(s.jobs[j]), va)
    && (forall k {:trigger k in t.jobs} {:trigger k in s.jobs} :: k != j ==>
          (k in t.jobs <==> k in s.jobs) && (k in s.jobs ==> t.jobs[k] == s.jobs[k]))
    && t.frames.Keys == s.frames.Keys && t.slots.Keys == s.slots.Keys
    && (forall f {:trigger t.frames[f]} :: f in s.frames && t.frames[f] != s.frames[f] ==>
          Mine(s.frames[f], va, Some(j)) && Mine(t.frames[f], va, Some(j)))
    && (forall d {:trigger t.slots[d]} :: d in s.slots && t.slots[d] != s.slots[d] ==>
          Mine(s.slots[d], va, Some(j)) && Mine(t.slots[d], va, Some(j)))
  }

  ghost predicate OwnersOk(s: World, t: World, va: nat, j: nat) {
    && (forall f {:trigger FrameOk(t, f)} ::
          f in t.frames && f in s.frames && FrameOk(s, f) && Mine(t.frames[f], va, Some(j)) ==> FrameOk(t, f))
    && (forall d {:trigger SlotOk(t, d)} ::
          d in t.slots && d in s.slots && SlotOk(s, d) && Mine(t.slots[d], va, Some(j)) ==> SlotOk(t, d))
  }

  lemma RehomedKeeps(s: World, truth: map<nat, Bytes>, t: World, after: map<nat, Bytes>, va: nat, j: nat)
    requires Sound(s, truth) && Rehomed(s, t, va, j) && OwnersOk(s, t, va, j) && SameTruth(truth, after, va, t)
    requires PageOk(t, after, va) && (j in t.jobs ==> JobOk(t, j))
    ensures Sound(t, after)
  {
    hide PageOk, JobOk, FrameOk, SlotOk;
    LocalKeeps(s, truth, t, after, va, Some(j));
  }
}
