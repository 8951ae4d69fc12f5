# ExtMem in Dafny

ExtMem keeps a program's memory in a limited number of DRAM frames and swaps pages
to a disk from user space.  Its descriptors (`struct user_page`) change role in
place: on a swap-in or an eviction, a page and a free descriptor trade offsets, both
move between seven intrusive lists, and a resident page stays paired with its old
disk slot, so that a clean page can be evicted without a write.

This project models that machine and proves what it promises:

* **Memory transparency.**  Whatever is paged in, paged out, read ahead or unmapped,
  a program reads what plain, zero-initialised memory would give it
  (`Runs.RunIsPlain`, `Runs.LoadReturnsLastWrite`, on the heap
  `System.ExecuteAll` and `System.RunFromStart`).
* **The same with threads.**  Any number of faulting, prefetching, scanning and
  evicting threads, with loads and stores in between: a load returns the last store
  (`Interleaving.LoadsReadLastStore`), a page is in one thread's hands at most, and of
  all asserts only two can fail, under conditions given exactly
  (`Interleaving.CrashIff`).  From every world a run leads to, the jobs that are there
  can go on to their end, unless a search runs out of rounds or batches keep the frames
  it waits for (`Rounds.ComesToRest`).  A page is put up for eviction only if it was not
  used between the last two looks at it (`Glances.SecondChance`).
* **Batch equals iteration.**  The vector eviction worker ends in the state of as many
  scalar evictions (`Workers.VectorIsScalar`).
* **Conservation.**  Frames, slots and list entries add up in every state, and
  unmapping everything gives everything back (`Laws`, `Runs.UnmappingAllFreesAll`).
* **Exact reclaim.**  How many pages a second-chance scan, a window scan, a reclaim
  round and a kswapd pass evict, which ones, and in what order; and which pages a
  read-ahead takes (`Lookahead.PrefetchTakes`).
* **Index and lists.**  The hash table with its doubling and its merge sort is a finite
  set or map; the intrusive lists are sequences.

## How it is laid out

| files | part |
|---|---|
| `Machine` | descriptors, lists, memory and device as a value; the invariant `Inv` |
| `Evict`, `Exchange`, `Workers` | evictions as phases; one page at a time and by batch |
| `SecondChance`, `ColdReclaim`, `Reclaim`, `PageRank` | the replacement policies |
| `Fetch`, `SwapIn`, `Lifetime`, `Faults`, `Prefetching`, `Lookahead` | frames, swap-in, first touch, unmapping, fault handlers, read-ahead |
| `Laws`, `Runs`, `Effects`, `Halting`, `TwoFrames` | conservation; whole runs, what they read, what each operation does to the lists, and where runs stop |
| `Removal`, `Fifo`, `Pager`, `Eviction`, `VectorEviction`, `Scan`, `Handlers`, `ReadAhead`, `Unmapping`, `Boot`, `System` | the same code on the heap: descriptors linked into lists, arrays of victims, loops; each method is proved equal to its function, and carries the asserts of the C code as Dafny asserts |
| `Protocol`, `Ownership`, `Steps`, `Interleaving`, `Glances` | the threads, step by step, and all their runs |
| `Pairing`, `Progress`, `Schedules`, `Rounds`, `Exhaustion`, `ColdSweep`, `Standstill` | how transitions and searches end, run out, or wait for ever |
| `HashTable`, `MergeSort`, `Links`, `Uthash` | the hash table, as a value and on the heap |

Every list is written oldest entry first.  The kernel and the device are small model
operations: UFFDIO_COPY maps bytes and leaves any dirty and accessed bits,
write-protection blocks stores, MADV_DONTNEED unmaps, and a read completes at any time
between its submission and the wait for it.

## Model

| member | source | states |
|---|---|---|
| `Runs.RunIsPlain` | src/core.c:147-214 | Memory transparency: in every run of loads, stores, first touches, vector evictions, kswapd passes, prefetches and unmappings that starts quiescent and stops at no assert, every byte read and the memory left behind are those of a plain zero-initialised memory. |
| `Runs.StepRefines` | src/core.c:147-214 | One operation keeps the invariant, changes the user's memory as plain memory would change, and a load outputs the byte plain memory holds. |
| `Runs.PlainIsLastWrite` | src/core.c:1295-1366 | After any operations a byte of the plain memory is the last byte stored there since its page was mapped, or zero; an independent definition of what a load must return. |
| `Runs.LoadReturnsLastWrite` | src/core.c:1094-1233 | From a machine with nothing tracked, a load at the end of any run returns the last byte stored at its address since the page was mapped, or zero. |
| `Halting.RunHaltsOnlyOutOfMemory` | src/policies/disklinux.c:972-1092 | On a machine of more than 64 frames, any run of a program that at no time holds more pages than there are slots stops nowhere but at "Out of memory": no eviction is without a slot and no search hangs, inside batches of up to 32 reads included. |
| `Halting.RunNeverHalts` | src/core.c:147-214 | A program that at no time holds more pages than there are slots, and always fewer than there are frames, stops nowhere, for any number of frames, any accessed bits and any evictions and read-ahead meanwhile. |
| `Halting.StepEnds` | src/core.c:147-214 | The same of one operation, from any quiescent state with room for the pages it leaves. |
| `Halting.FetchManyEnds` | src/core.c:1675-1680 | On such a machine, fetching n more frames with h handed out and h + n at most 32 fails, if at all, at "Out of memory". |
| `Halting.PrefetchNeedsFrames` | src/core.c:1675-1680 | A read-ahead of more pages than the machine has frames never completes: it ends at one of the two asserts or spins. |
| `Halting.OneFrameRunsOut` | src/policies/disklinux.c:972-1092 | With one frame, touching two pages stops at "Out of memory", however large the disk is. |
| `TwoFrames.ReadAheadSpins` | src/policies/disklinux.c:983-988 | On two frames, from any quiescent state with nothing tracked: five consecutive pages are touched, the first is loaded again with read-ahead, and the run ends in the search that never ends. |
| `TwoFrames.ReadAheadEvicts` | src/core.c:1218-1226 | On two frames a fault handler can return with the page it was called for evicted again. |
| `Runs.HandleKeeps` | src/core.c:188-203 | The handler's three-way dispatch leaves the user's memory as it was (plus one page of zeros on a first touch); without prefetch the faulting page is mapped on return. |
| `Runs.AccessKeeps` | src/core.c:147-214 | Retrying the access until it no longer faults needs at most two faults and changes nothing but the first touch. |
| `Runs.UnmapIsRemoval` | src/core.c:512-576 | Unmapping a range removes exactly the tracked pages in it from the user's memory and leaves all other contents. |
| `Runs.UnmappingAllFreesAll` | src/policies/disklinux.c:1153-1219 | After unmapping a range that covers all tracked pages, all N frames and all D slots are on the free lists and `mem_allocated` is 0. |
| `Runs.NothingLeaks` | src/policies/disklinux.c:1153-1219 | Whenever nothing is tracked, every frame and slot is on its free list and all other lists are empty. |
| `Runs.DiskNeverRunsOut` | src/policies/disklinux.c:705-720 | While the tracked pages do not outnumber the slots, a batch of any size never reaches "no disk page found". |
| `Runs.KswapdKeeps` | src/policies/disklinux.c:425-474 | A kswapd pass keeps the invariant and is invisible to the user. |
| `Evict.Commute` | src/policies/disklinux.c:625-797 | Two different phases of the evictions of two different victims, each with its own disk descriptor, commute on descriptors, lists and memory. |
| `Evict.BatchIsIteration` | src/policies/disklinux.c:625-797 | For any number of victims, doing each phase for the whole batch ends in the same state as doing all phases victim by victim. |
| `Workers.VectorIsScalar` | src/policies/disklinux.c:479-620 | One vector pass over n victims ends in exactly the state (lists as sequences, all descriptor fields, disk, mapped set) of n scalar passes, and fails for want of a disk page exactly when they would. |
| `Effects.BatchWorksOff` | src/policies/disklinux.c:625-797 | A vector pass over n pages evicts exactly the n oldest that await eviction, or all of them: these are on disk, oldest first, and unmapped, no other page is, and as many frames more are free. |
| `Exchange.RunExchanges` | src/core.c:853-940 | The phases of one eviction together swap the offsets of victim and disk descriptor, write the victim out exactly when it is dirty or has no reserve, unmap it and dissolve the pairing. |
| `Exchange.ExchangeKeeps` | src/policies/disklinux.c:530-611 | An eviction keeps the invariant, the contents of every tracked page, and every descriptor that is lent out; so skipping the write of a clean page with a reserve is sound. |
| `Laws.FramesLaw` | src/policies/disklinux.c:1228-1239 | In every state of the invariant the mapped pages, the free frames and the frames handed out add up to dramsize/4096. |
| `Laws.SlotsLaw` | src/policies/disklinux.c:1242-1254 | Free slots and tracked pages balance against the slots and the resident pages without a reserve. |
| `Laws.EachPlaceOnce` | src/policies/disklinux.c:1228-1254 | Each frame offset below dramsize, and each slot offset below disksize, belongs to exactly one descriptor. |
| `Laws.SlotForVictim` | src/policies/disklinux.c:565-611 | With no more tracked pages than slots, a victim without a reserve finds a free slot. |
| `SecondChance.SecondChanceIsExact` | src/policies/disklinux.c:342-404 | With no new accesses and 2n <= 100r, the scan evicts exactly min(r, n - h) pages, in the order cold then warm, and promotes only hot pages, oldest first. |
| `SecondChance.ScanExact` | src/policies/disklinux.c:342-404 | From any point of the loop with enough tries left, the rest of it evicts, in the order cold then warm, exactly as many pages as are still asked for and not hot, and promotes only hot pages, oldest first. |
| `SecondChance.EvictedUnaccessed` | src/policies/disklinux.c:342-404 | Every page that a scan moves to the eviction list had a clear accessed bit when the scan last looked at it. |
| `Reclaim.MachineScanIsExact` | src/policies/disklinux.c:342-404 | In any state of the invariant, the scan of the machine's own lists with no new accesses and 2n <= 100r adds exactly min(r, n - h) pages to the eviction list, all with a clear accessed bit, and returns that number. |
| `SecondChance.ShrinkActiveExact` | src/policies/disklinux.c:304-340 | The active scan demotes exactly the min(r, n) oldest active pages, in order, and touches no accessed bit. |
| `SecondChance.ReclaimBound` | src/policies/disklinux.c:804-850 | A request for k > 0 pages conserves the pages of the three lists together, only appends to the eviction list, and returns how many it appended, at most k + 31. |
| `SecondChance.WatermarkHolds` | src/policies/disklinux.c:425-474 | A kswapd pass leaves active + inactive at least low watermark - 31, and does nothing at or below the watermark; above it, with a shifted inactive length above zero, it evicts something if a scan can. |
| `ColdReclaim.KswapdExact` | src/policies/disklinux.c:440-459 | With no accessed bit set, a pass that finds nr pages above the watermark evicts exactly the 32k oldest inactive pages, k being the least number with 32k >= inactive/4096 or 32k >= nr, and demotes the 32d oldest active ones, d the least number up to k with 32d >= active/4096; both in order. |
| `Effects.KswapdMoves` | src/policies/disklinux.c:440-459 | The same of the operation on the machine's own lists, with the watermark at 85 percent of the frames. |
| `Effects.KswapdRests` | src/policies/disklinux.c:440-446 | At or below the watermark a pass leaves the whole state as it is, whatever was accessed. |
| `ColdReclaim.ColdRounds` | src/policies/disklinux.c:820-841 | From any point of the reclaim loop over pages that were not accessed, the clusters evicted, and those demoted, until enough was scanned or reclaimed: how many, which, in what order. |
| `ColdReclaim.SecondLook` | src/policies/disklinux.c:366-400 | A page met accessed for the first time is passed over; when it comes up again it is promoted if it was accessed since, and awaits eviction if not, whatever else was accessed meanwhile. |
| `ColdReclaim.ScanGivesUp` | src/policies/disklinux.c:352-353 | A scan for a cluster that meets 3200 accessed pages first evicts none and looks at no more; it promotes the hot ones of these and puts the others behind. |
| `SecondChance.ReclaimEvicts` | src/policies/disklinux.c:820-841 | A reclaim with a shifted inactive length above zero evicts something if the inactive pages are few enough for one scan and not all hot, or one of the first 3200 has a clear accessed bit. |
| `SecondChance.HotReclaim` | src/policies/disklinux.c:799-853 | A reclaim of one cluster over inactive pages that are all hot evicts none: they go to the active end in order, and the oldest active pages take their place, uncounted, exactly if the shifted active length is positive. |
| `Reclaim.AdoptKeeps` | src/policies/disklinux.c:342-404 | Any rearrangement of the three policy lists that only clears accessed bits keeps the invariant and is invisible to the user and to holders of lent-out descriptors. |
| `Fetch.FetchKeeps` | src/policies/disklinux.c:942-1093 | A frame that the search returns is listless, in DRAM, has va 0, was on a list before, and is the only newly lent-out descriptor; the invariant and all user memory are kept. |
| `Fetch.StuckIff` | src/policies/disklinux.c:972-986 | The search hangs in its loop exactly when nothing is free or awaiting eviction and the lists hold at most half of DRAM. |
| `Fetch.OutOfMemoryIff` | src/policies/disklinux.c:972-1092 | For any accessed bits: the search ends at "Out of memory" exactly when nothing is free or awaiting eviction, the lists hold more than half of DRAM, and either fewer than two pages are inactive, or all inactive pages are hot and no active page takes their place before the last round (the first round p that looks is the last, or \|active\| >> p is 0).  One scan must be able to look at all inactive pages, or meet a clear bit. |
| `Fetch.HotRunsOut` | src/policies/disklinux.c:342-404 | When all inactive pages are hot, what decides is whether a page can be demoted in the first round that looks and looked at again in a later one. |
| `Fetch.ScanServes` | src/policies/disklinux.c:820-841 | If some scan can evict a page, some round does, and the search does not run out. |
| `Fetch.FetchSucceeds` | src/policies/disklinux.c:942-1093 | With more than 64 frames and at most 32 handed out the search ends; it finds a frame whenever the tracked pages fit the slots and the inactive pages, in reach of one scan, are not spent in that sense. |
| `Fetch.FetchFindsSlot` | src/policies/disklinux.c:1049-1077 | With no more tracked pages than slots, self-eviction never reaches "No disk page found". |
| `Effects.FetchTakesFree` | src/policies/disklinux.c:968-975 | A search takes the oldest free frame if there is one, and moves nothing else. |
| `Effects.FetchEvictsOnly` | src/policies/disklinux.c:968-996 | With none free, and at most half of DRAM on the active and inactive lists, it evicts the oldest page that awaits eviction and reclaims nothing. |
| `Effects.FetchReclaimsFirst` | src/policies/disklinux.c:968-996 | With more on them and 4096 pages inactive, none accessed, it first puts the 32 oldest inactive pages behind those that await eviction already, demotes the 32 oldest active ones if there are 4096 or more, and then evicts the oldest that awaits it. |
| `Effects.FetchReclaimsLater` | src/policies/disklinux.c:968-996 | With fewer inactive pages and none awaiting eviction, the round whose shifted inactive length is the first above zero reclaims a cluster, and the oldest of it is evicted. |
| `Effects.VictimWritesBack` | src/policies/disklinux.c:530-611 | The page that the search, or the worker, evicts takes the slot kept for it or else the first free one, and its bytes are written there, unless it is clean and had its slot: then the disk stays as it is. |
| `SwapIn.StartReadKeeps` | src/policies/disklinux.c:176-185 | Marking and detaching a swapped-out page keeps the invariant and is invisible. |
| `SwapIn.FinishKeeps` | src/core.c:759-850 | Mapping a page from its slot's bytes, for any dirty and accessed bits the kernel leaves, and keeping the slot as reserve keeps the invariant and the user's memory. |
| `Faults.FirstFaultKeeps` | src/core.c:1239-1388 | After a first fault the page is there, new and zero or tracked before; a page that was tracked meanwhile makes the frame go back; no other page changes. |
| `Faults.MissingFaultKeeps` | src/core.c:1094-1233 | A major fault maps the page with the contents it had, whether the read completes before or after the evictions that make room. |
| `Faults.PutBackKeeps` | src/policies/disklinux.c:1117-1123 | Returning an unused frame keeps the invariant and the user's memory. |
| `Effects.TouchFetches` | src/core.c:1239-1388 | A first touch makes the frame that the search finds the youngest inactive page, and moves nothing else. |
| `Effects.TouchReturns` | src/core.c:1255-1299 | If the page is tracked by then, the frame goes back as the youngest free one, and no page is mapped, moved or changed beyond the search. |
| `Effects.MajorFaultFetches` | src/core.c:1094-1233 | A major fault makes the page the youngest inactive one, with its old slot, now named by the frame's descriptor, kept as its reserve. |
| `Lifetime.FreshKeeps` | src/core.c:1280-1366 | A first touch adds exactly one page of zeros. |
| `Lifetime.DropKeeps` | src/policies/disklinux.c:1153-1219 | Untracking a page with its frame or slot and its reserve takes exactly that page from the user and keeps the invariant, `mem_allocated` at 4096 times the tracked pages included. |
| `Effects.UnmapFrees` | src/policies/disklinux.c:1153-1219 | Unmapping one page takes it off its list; its frame, and the slot kept for it, or its slot if it was on disk, become the youngest free ones; nothing is written. |
| `Prefetching.OverlappedReads` | src/storage_iouring.c:226-238 | For every time at which a read completes, its buffer holds what the slot held at submission: evictions that run while reads are in flight never write their slots. |
| `Prefetching.FetchManyKeeps` | src/core.c:1675-1685 | While a batch of frames is fetched, every intermediate state shows the user the same and leaves all descriptors already lent out unchanged; the frames are new, free and distinct. |
| `Prefetching.PrefetchKeeps` | src/core.c:1536-1742 | A whole prefetch is invisible: each page it maps receives its own contents, for every completion order, and no read or frame is left pending. |
| `Lookahead.PrefetchTakes` | src/core.c:1536-1742 | A read-ahead takes, in order, the pages right after the fault that are on disk, up to 32 and up to the first that is not; each of them is mapped when it is over, and no other page that was not before.  With frames free for all it succeeds, evicts nothing, and they are the youngest inactive pages, in order, with the oldest free frames. |
| `Lookahead.HandleMaps` | src/core.c:184-206 | A fault at a page on disk maps it and, if the access is sequential, the pages on disk after it, up to 32; with frames free for all of them exactly these are mapped in addition, and without read-ahead the page alone. |
| `Lookahead.FetchShrinks` | src/policies/disklinux.c:942-1093 | The search for a frame maps no page, whatever it reclaims or evicts. |
| `Eviction.EvictionWorker` | src/policies/disklinux.c:479-620 | The scalar worker on the heap, one pass, equals the specified eviction; it fails exactly when a victim finds no disk page. |
| `Eviction.EvictVictim` | src/policies/disklinux.c:997-1077 | The eviction of one dequeued page, as the worker and as the self-evicting fetch perform it, equals all phases of its job. |
| `Eviction.MigrateDown` | src/core.c:853-940 | Write-out, unmapping and the change of place and flag, in the code's order, equal the corresponding phases. |
| `VectorEviction.MigrateDownVector` | src/core.c:942-1040 | The batched write-out, unmapping, move and flag loops over the arrays equal the corresponding phases swept over all jobs. |
| `VectorEviction.EvictionWorkerVector` | src/policies/disklinux.c:625-797 | The vector worker on the heap, one pass, with its four arrays and loops equals the specified batch; it fails exactly when the batch finds too few disk pages. |
| `Scan.ShrinkInactiveList` | src/policies/disklinux.c:342-404 | The second-chance loop on the heap refines the scan function, result count included. |
| `Scan.ShrinkActiveList` | src/policies/disklinux.c:304-340 | The demotion loop on the heap refines the demotion function, result count included. |
| `Scan.DirectAllocate` | src/policies/disklinux.c:804-850 | The priority-driven reclaim loop on the heap refines the reclaim function, result count included. |
| `Handlers.FetchFreeAsynch` | src/policies/disklinux.c:942-1093 | The frame search on the heap ends with the outcome and the state of the search function. |
| `Handlers.PageFaultFrame` | src/policies/disklinux.c:1096-1108 | A frame for a handler: the search, then `migrating` is set. |
| `Handlers.FinishSwapIn` | src/policies/disklinux.c:204-218 | Mapping and the exchange of place with the frame's descriptor, field by field, equal the finish function. |
| `Handlers.HandleMissingFault` | src/core.c:1094-1233 | The major fault on the heap ends with the result of the fault function. |
| `Handlers.HandleFirstFault` | src/core.c:1239-1388 | The first fault on the heap ends with the result of the fault function. |
| `Unmapping.RemovePage` | src/policies/disklinux.c:1153-1219 | Removal on the heap frees the page and its reserve as the removal function says. |
| `Unmapping.Munmap` | src/core.c:512-576 | The range loop on the heap equals dropping the tracked pages of the range one by one. |
| `ReadAhead.GatherPages` | src/core.c:1561-1632 | The gathering loop on the heap marks and detaches exactly the pages the gather function names. |
| `ReadAhead.FetchFrames` | src/core.c:1675-1685 | The frames are fetched one by one while reads complete; the buffers hold what each slot held when its read completed. |
| `ReadAhead.FinishPages` | src/core.c:1706-1737 | The publishing loop on the heap equals finishing all pages. |
| `ReadAhead.CoreTryPrefetch` | src/core.c:1536-1742 | The whole prefetch on the heap ends with the result of the prefetch function, for any completion times. |
| `Boot.BootedQuiescent` | src/policies/disklinux.c:1222-1280 | The initial state satisfies the whole invariant with nothing tracked, and frames and slots stand on their free lists in the order of their offsets. |
| `Boot.LrudiskInit` | src/policies/disklinux.c:1222-1280 | The two initialisation loops build exactly that state. |
| `System.SignalHandler` | src/core.c:147-214 | The dispatch on the heap ends with the result of the handler function. |
| `System.KswapdOnce` | src/policies/disklinux.c:425-474 | One kswapd pass on the heap equals the pass function with the low watermark of 85 percent. |
| `System.Execute` | src/core.c:147-214 | Any one operation on the heap produces the state and the output of the step function, or stops at the assert at which it does. |
| `System.ExecuteAll` | src/core.c:147-214 | Any sequence of operations on the heap reads, and leaves, what plain memory would, or stops where the specified run stops. |
| `System.RunFromStart` | src/policies/disklinux.c:1222-1280 | From initialisation on, any run on the heap reads what plain memory would; with more than 64 frames, and slots for all pages held at a time, it stops at no assert but "Out of memory"; and on any machine it stops nowhere if the program always leaves one frame over. |
| `Fifo.FifoList.Enqueue` | src/fifo.c:7-24 | The list gains the entry as its youngest; links, counters and back-pointers stay consistent and every other list stays as it is. |
| `Fifo.FifoList.Dequeue` | src/fifo.c:27-51 | The oldest entry is returned and unlinked, or null from an empty list. |
| `Fifo.FifoList.RemovePage` | src/fifo.c:54-86 | The sequence without the page, wherever it stood. |
| `Fifo.FifoList.TryRemovePage` | src/fifo.c:89-131 | Returns 0 and removes the page exactly if it is on the given list, else -1 and nothing changes. |
| `Fifo.FifoList.NextPage` | src/fifo.c:134-145 | Iteration from the oldest entry on visits the sequence in order and ends with null. |
| `Fifo.DequeueVector` | src/fifo.c:148-183 | Takes min(k, length) oldest entries in order, as that many single dequeues would. |
| `PageRank.WindowScanIsExact` | src/policies/pageRank.c:380-410 | With n <= 100r the scan evicts exactly min(r, pages outside the windows), the oldest of them; what is kept is a rotation.  No page goes that lies less than 512 MiB below `safe_to_free`, or less than the window size and 2 MiB above it; and if fewer than r go, every page left lies there. |
| `PageRank.OutsideIs` | src/policies/pageRank.c:389-395 | The pages that may go are exactly those that lie in neither of the two windows, given as distances in bytes. |
| `PageRank.OutsideInOrder` | src/policies/pageRank.c:379-410 | They go in the order of the list, for any way of cutting the list in two. |
| `PageRank.ShrinkInactiveWindow` | src/policies/pageRank.c:380-410 | The window scan on the heap refines the scan function, result count included. |
| `HashTable.IdealIsCeil` | src/uthash.h:859-862 | The shift and the mask of the doubling compute the items per new bucket, rounded up. |
| `HashTable.BucketSplits` | src/uthash.h:441-444 | The items of bucket i go to bucket i or i + n of the 2n buckets. |
| `HashTable.ExpandSound` | src/uthash.h:846-896 | Doubling keeps every item and the application order and files each item at its hash modulo the doubled size. |
| `HashTable.ExpandCounts` | src/uthash.h:846-896 | A doubling leaves 2^log2 buckets, twice as many as before, the ideal chain length rounded up, and all items beyond it counted; `expand_mult` of a bucket is 0 up to the ideal length and then the chain in ideal lengths, rounded up, or its excess if less; and doubling is given up when more than half of the items are beyond it twice in a row. |
| `HashTable.AddCounts` | src/uthash.h:778-797 | An item is added in front of the bucket of its hash; the buckets double exactly when it is the tenth there, or the ten times (`expand_mult` + 1)-th, or beyond, and doubling was not given up, and otherwise nothing else changes. |
| `HashTable.FirstAdded` | src/uthash.h:225-250 | The first item makes a table of 2097152 buckets, empty but for its own. |
| `HashTable.CountsAgree` | src/uthash.h:527-574 | The bucket counts add up to the number of items, as HASH_FSCK demands. |
| `HashTable.FindIsMember` | src/uthash.h:164-184 | The search of the key's bucket finds a key exactly if it is in the table. |
| `HashTable.AddHolds` | src/uthash.h:407-426 | Adding a new key, with whatever doubling it triggers, adds exactly that key and keeps the integrity of chains and application order. |
| `HashTable.DeleteHolds` | src/uthash.h:461-488 | Deleting a key removes exactly that key and keeps the integrity; with the last one the table goes. |
| `HashTable.SortHolds` | src/uthash.h:903-985 | Sorting keeps the set of keys, the chains and the integrity of the application order. |
| `HashTable.TableIsSet` | src/core.c:116-140 | Any legal sequence of additions, deletions and lookups, with doublings in between, is answered as a finite set would answer it. |
| `Links.LinkList.PushFront` | src/uthash.h:780-789 | The item heads the bucket chain. |
| `Links.LinkList.PushBack` | src/uthash.h:289-295 | The item ends the list in application order. |
| `Links.LinkList.Unlink` | src/uthash.h:802-815 | The item leaves its chain wherever it stood; links and count stay consistent. |
| `MergeSort.SortLinks` | src/uthash.h:903-985 | The bottom-up merge loops over the links terminate and leave the list sorted stably, with `prev`, `next` and tail consistent. |
| `MergeSort.SortedIsRight` | src/uthash.h:903-985 | For any total preorder, what the doubling passes compute is an ordered, stable permutation. |
| `MergeSort.StableOrderIsUnique` | src/uthash.h:903-985 | There is only one ordered, stable permutation, so the result does not depend on how the runs are merged. |
| `Uthash.HashTable.Sort` | src/uthash.h:903-985 | Only the list in application order changes, to the sorted one; buckets, chains and counters stay. |
| `Uthash.HashTable.Find` | src/uthash.h:758-777 | The walk along the bucket chain returns the link of the key, or null if the chain has none. |
| `Uthash.HashTable.Expand` | src/uthash.h:846-896 | The doubling loops over buckets and chains, which reuse the links of the items, produce exactly the doubled table. |
| `Uthash.HashTable.Add` | src/uthash.h:407-426 | Adding an item to chain and application order, with a doubling when the bucket is full, equals the value-level addition. |
| `Uthash.HashTable.DeleteItem` | src/uthash.h:461-488 | Unlinking an item from chain and application order leaves the table with exactly the other items and their elements. |
| `Uthash.PageTable.FindPage` | src/core.c:133-140 | Returns the page stored for the address in the finite map, or none. |
| `Uthash.PageTable.AddPage` | src/core.c:116-124 | The finite map from address to page gains the entry. |
| `Uthash.PageTable.RemovePage` | src/core.c:126-131 | The finite map loses the entry of the page whose handle is given. |
| `Uthash.PageTable.Sort` | src/uthash.h:903-985 | The finite map from address to page is the same after sorting. |
| `Steps.StoreKeeps` | src/core.c:1076-1091 | A store, between any two steps of any transition, keeps the invariant, with the stored bytes as the new truth of that page and of no other. |
| `Steps.CheckNewKeeps` | src/core.c:1255-1299 | The second look under the allocator lock adds the page or gives the frame back, whichever threads raced. |
| `Steps.PublishKeeps` | src/policies/disklinux.c:223-255 | Publication finds the flags and the list its asserts demand, and keeps the invariant when it pairs the page with its old slot. |
| `Steps.TakeSlotKeeps` | src/policies/disklinux.c:686-720 | Taking the reserve, or a free slot, keeps the invariant, so each slot stays with one page or one job. |
| `Steps.MoveKeeps` | src/core.c:902-916 | The exchange of frame and slot between the page and its evicting job fails no assert and keeps the invariant, so neither is lost. |
| `Interleaving.StepKeeps` | src/core.c:1131-1156 | Every step of every thread keeps the invariant of the protocol. |
| `Interleaving.LoadsReadLastStore` | src/policies/disklinux.c:511-564 | For any number of threads and any interleaving of faults, prefetches, scans, evictions, loads and stores, a load returns what was last stored in the page, or zero; no store is lost between write-protect, dirty sampling, write-out, unmapping and publication. |
| `Interleaving.NeverWaits` | src/core.c:1131-1156 | A page that is neither migrating nor swapped out never makes the program wait: a load returns what was last stored, and a store is possible, in any state of scans and of jobs on other pages. |
| `Effects.AccessMarks` | src/policies/disklinux.c:359-366 | What a scan reads of a mapped page: a load or a store sets its accessed bit, a store its dirty bit too, and no other bit and no list changes. |
| `Glances.SecondChance` | src/policies/disklinux.c:366-400 | However the threads interleave, the accessed bit of a page says whether it was used since a scan last looked at it (or it was mapped with the bit set); a page that awaits eviction or is on disk was last met by a scan with the bit clear, and an active one with the bit set. |
| `Glances.LookSpares` | src/policies/disklinux.c:366-400 | A look clears the bit; if it was set, the page can go to the active or the inactive list but not to the eviction list, and if it was clear, to the eviction list alone. |
| `Glances.TakeDemotes` | src/policies/disklinux.c:316-336 | An active page that is scanned goes to the inactive list, and its bit is not looked at. |
| `Glances.PutMoves` | src/policies/disklinux.c:366-400 | A page that a scan puts back is on that list and in no hands; no other page moves and no bit changes. |
| `Glances.WritesBack` | src/core.c:853-940 | In an eviction a clean page that has a slot is not written; any other is, to the slot it has or a free one, and no other slot changes. |
| `Interleaving.TakenAtRest` | src/core.c:1134-1156 | The flags and lists tested when a page is claimed, picked or scanned guarantee that no job holds it; so at most one thread owns a transition. |
| `Interleaving.JobsAreApart` | src/core.c:1631-1742 | No two jobs work on the same page, or have the same frame or slot. |
| `Interleaving.CrashIff` | src/policies/disklinux.c:972-1092 | Of all asserts and must-not-fail kernel calls of the protocol, the reclaim that a search does for itself included, two can fail: "no disk page found" exactly when a page without a reserve needs a slot and none is free, and "Out of memory" exactly when the last round of a search finds no page awaiting eviction. |
| `Interleaving.SlotIsFound` | src/policies/disklinux.c:705-720 | While no more pages are tracked than there are slots, no step of any thread fails with "no disk page found". |
| `Interleaving.RunsEndOutOfMemory` | src/policies/disklinux.c:1074-1092 | If the program touches no more distinct pages than the disk has slots, no run of any interleaving fails an assert other than "Out of memory". |
| `Interleaving.RunsNeverCrash` | src/policies/disklinux.c:983-988 | If the program touches no more distinct pages than the disk has slots, and no more than half as many as there are frames, no run of any interleaving fails an assert. |
| `Interleaving.RunsFindFrames` | src/policies/disklinux.c:972-981 | Nor does one fail if there are more frames than pages and jobs, at any one time, that carry a frame for which there is no page yet: then a frame is always free. |
| `Exhaustion.SearchFails` | src/policies/disklinux.c:972-1092 | Left alone, a search with p rounds left runs through them without a scan to "Out of memory" exactly when nothing is free or awaiting eviction, the lists hold more than half of DRAM, and fewer than two pages are inactive. |
| `ColdSweep.ReclaimsCluster` | src/policies/disklinux.c:799-852 | The reclaim that a search does for itself, undisturbed, with no active page and no inactive one used, puts 32 inactive pages, or all if there are fewer, on the eviction list, whichever it takes, and then goes on to evict one; before that it can do nothing but take another. |
| `Exhaustion.OutOfMemoryHappens` | src/policies/disklinux.c:1092 | A bound on memory is needed: with one frame and two touched pages there is a run that fails at "Out of memory" after twelve rounds, however many slots there are. |
| `Interleaving.MappedFits` | src/policies/disklinux.c:204-218 | At every moment, even inside an eviction or a swap-in, the mapped pages and the free frames together are at most the frames of DRAM. |
| `Progress.StepsEnd` | src/core.c:1134-1141 | Each step of a job, its search apart, brings it strictly nearer to its end, and no step of another job touches more of it than its search or hands it its frame; so a wait on `migrating` is for a bounded number of steps of one job besides its search. |
| `Pairing.StepLinks` | src/policies/disklinux.c:996-1085 | Every step keeps each search paired with the one job that scans or evicts for it, so no page in hand is forgotten and no frame is handed to the wrong search. |
| `Progress.JobCanStep` | src/core.c:1675-1742 | A job that waits neither for a frame nor for the rest of its batch can take its next step: it waits for no other page and for no lock another job keeps. |
| `Progress.BatchesHold` | src/core.c:1675-1680 | Threads that read batches of at most k pages keep at most k - 1 frames each while they look for more. |
| `Schedules.RunsFit` | src/policies/disklinux.c:1222-1280 | Every run from the start that touches no more pages than the disk has slots, however the threads interleave, leads to a world of which the next results speak. |
| `Rounds.SearchEnds` | src/policies/disklinux.c:972-1092 | From every world a run can lead to, with a slot for each page, the jobs that are there can be scheduled, without new touches, faults, claims or scans by kswapd, so that after finitely many steps a given search has its frame, or one has failed with "Out of memory", or all jobs are cornered.  The schedule only says which job steps next: which page, frame or slot is next on a list, whether an accessed page is promoted, with which bits a page is mapped and whether a reclaim is skipped is left to any function of the steps so far.  None fails while no page is accessed or active, there are two frames, and no search is in its last round. |
| `Rounds.ComesToRest` | src/policies/disklinux.c:972-1092 | And so that every transition ends and each page is on a list, with the same exceptions. |
| `Schedules.StepInTurn` | src/core.c:1675-1680 | In every step a search that is in its reclaim stays the one its thread looks with, so a batch looks for one frame at a time. |
| `Rounds.LookOn` | src/policies/disklinux.c:972-1092 | When all jobs wait, the rounds of one search, with its own reclaims and eviction, come to an end: served, failed, or stalled while batches keep the frames or another search scans. |
| `Standstill.RoomyRests` | src/core.c:1675-1680 | With more than 62 frames for each thread that reads a batch of up to 32 pages nobody is cornered: all transitions can end, unless a search fails. |
| `Standstill.CorneredHolds` | src/core.c:1675-1680 | Jobs are cornered only while batches that are short of frames keep at least half of them. |
| `Standstill.CorneredForever` | src/policies/disklinux.c:983-988 | Cornered jobs stay so in every run without new work: no assert is reached, no job ends and no page changes. |
| `Standstill.CorneredStep` | src/policies/disklinux.c:975-996 | In such a world, until there is new work, the only possible steps are loads, stores and looks of a search that find nothing. |
| `Standstill.NeverMapped` | src/core.c:1675-1680 | A batch with more pages than there are frames is never mapped, in any run, whatever the threads do. |
| `Standstill.CorneredHappens` | src/core.c:1675-1680 | On every machine of two to fifteen frames a run leads there, whatever pages the scans and evictions take: pages are touched one after the other, more than twice the frames, and one read-ahead of at most 32 pages then takes those that are on the disk; kswapd and the workers need not do anything. |

## Findings

What the proofs show the code does not do, with the exact condition and an input.

* **A search for a frame can spin.**  `fetch_free_asynch` counts its priority down only
  when the active and inactive lists hold more than half of DRAM
  (src/policies/disklinux.c:983-988).  When nothing is free, nothing awaits eviction and
  the lists hold no more than that, the loop has no exit: exactly then, by
  `Fetch.StuckIff`.  On two frames, touching five pages in a row and loading the first
  with read-ahead leads there (`TwoFrames.ReadAheadSpins`).  With more than 64 frames and
  at most 32 handed out it cannot happen to a single thread (`Fetch.FetchSucceeds`), and
  so in no run of it (`Halting.RunHaltsOnlyOutOfMemory`); nor to a program that always
  leaves a frame over (`Halting.RunNeverHalts`).
* **"Out of memory" with memory to spare.**  When nothing is free or awaiting eviction and
  the lists hold more than half of DRAM, the search still reaches
  `assert(!"Out of memory")` in two families of states, and in no others
  (`Fetch.OutOfMemoryIff`).  With fewer than two inactive pages, a long active list does
  not help, because a reclaim round does nothing unless the shifted length of the
  inactive list is positive (src/policies/disklinux.c:820-824).  And when all inactive
  pages are hot, the first round that looks at them makes them active; it demotes others
  in their place only if the shifted length of the active list is positive, and they can
  be evicted only in a later round.  One frame and two touched pages are enough for the
  first (`Halting.OneFrameRunsOut`).
* **The same with threads.**  `Exhaustion.SearchFails` gives the condition for a search
  that is left alone and does not scan, `Exhaustion.OutOfMemoryHappens` a run.  No run
  fails if the touched pages fit in half of DRAM and have a slot each
  (`Interleaving.RunsNeverCrash`), or if the frames outnumber them together with the
  frames that threads carry (`Interleaving.RunsFindFrames`).
* **A batch can wait for its own frames.**  `core_try_prefetch` looks for the frames of
  all its pages before it maps the first (src/core.c:1675-1680).  No batch of more pages
  than there are frames completes, for one thread (`Halting.PrefetchNeedsFrames`) or
  many (`Standstill.NeverMapped`).  The threads end up cornered
  (`Standstill.CorneredHappens`; five pages on two frames, then a batch of three), and
  then go round for ever without an assert (`Standstill.CorneredForever`).  It cannot
  happen with more than 62 frames for each thread that reads ahead
  (`Standstill.RoomyRests`).
* **A fault may have to be taken twice.**  The read-ahead that follows a major fault may
  evict the page that was just mapped: `TwoFrames.ReadAheadEvicts` gives the input.
  `Runs.HandleKeeps` promises the page mapped only without it, and `Runs.AccessKeeps`
  shows that the second fault settles it.
* **A commented-out assert holds.**  A page on disk that is removed has no reserve
  (src/policies/disklinux.c:1184-1213); `Unmapping.RemovePage` asserts it.

## Left out

* Kernel and device calls, beyond the model operations named above; device errors, short
  reads and failing system calls.
* Signal delivery, thread creation, condition variables and sleeping: each worker is
  one pass, and what wakes it is not modelled.
* The endless loop of a search is returned as an outcome (`Stuck`, `Spins`), since every
  method here terminates.
* Integer widths: counters and sizes are naturals.  This leaves out wrap-around of the
  32-bit counts of the hash table, of `insize` in the merge sort, of `int nr_pages` in
  the reclaim, and of addresses near the end of the 64-bit range, window bounds included.
* The Jenkins hash: any function from keys to naturals stands for it.  The Bloom filter
  and the paths for failed allocations are not modelled.
* `index` of `Pager.Pager` is a finite map.  That the hash table behaves as one is
  proved of it by itself (`Uthash.PageTable`), not with the pager's footprint around it.
* Sequential-access detection: whether a fault reads ahead is up to the environment.
* `mem_mmaped`, `migrations_up`, `migrations_down` and all statistics.
* The wait of a first fault for a page that another thread tracked meanwhile is not part
  of the sequential model, where a fault always runs to its end; the protocol has it.
* In the sequential model reads complete between two frame fetches, not inside one.  In
  the protocol they complete at any step.
* In the protocol, publication of a page that was swapped in is one step, and the program
  unmaps nothing; the source marks both as open (src/core.c:526).
* In the protocol a scan takes pages off their list one by one in any order, and whether
  a page that was accessed is promoted or requeued is free.  A reclaim reads the lengths
  of the lists as they are, so other threads may change them meanwhile.
* In the protocol a search skips its reclaim only while some thread shrinks a list.
* Where the eviction code stands twice in the source (the worker and the self-evicting
  search), `Eviction.EvictVictim` stands for both.
* `disk_written_list`, huge pages, SPDK, `core_try_prefault`, the polling handler,
  `lrudisk_swapin`, `fetch_free_page` and `lrudisk_allocate_page_critical`: unused or
  dead code.
* The rest of src/policies/pageRank.c, which repeats src/policies/disklinux.c.
* The comparator of the merge sort is a function of two keys, not of two elements.
* src/intercept_layer.c, logging, timers, plots and scripts.
- Fetch.OutOfMemoryIff: says nothing of states with 3200 or more inactive pages of which the first 3200 are all accessed, where a scan ends before it comes to the others; `Fetch.StuckIff` and `Fetch.FetchFindsSlot` hold there too.
- Exhaustion.SearchFails: is about rounds that scan nothing; for a single thread `Fetch.OutOfMemoryIff` says when the others fail.
- Interleaving.RunsNeverCrash, Interleaving.RunsFindFrames: the conditions are enough but not necessary; for one step `Interleaving.CrashIff` is exact.
- Rounds.SearchEnds, Rounds.ComesToRest: say that a schedule exists from every such world, not that each scheduler takes it.
- SecondChance.SecondChanceIsExact: for longer inactive lists, where the bound of 100 looks per requested page cuts the scan short, only `SecondChance.EvictedUnaccessed`, `ColdReclaim.ScanGivesUp` and conservation are stated.
- ColdReclaim.KswapdExact, Effects.KswapdMoves, Effects.FetchReclaimsFirst, Effects.FetchReclaimsLater: count the pages of whole reclaims over pages that were not accessed; of accessed ones `SecondChance.ReclaimBound` and `SecondChance.ReclaimEvicts` bound a reclaim from both sides.
- ColdSweep.ReclaimsCluster: likewise, and undisturbed; what other threads may do meanwhile is bounded by `Glances.SecondChance` alone.
- SecondChance.WatermarkHolds: one pass; kswapd repeats passes while above the watermark.
