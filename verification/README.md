# memcached with ramcube replication, modelled and proved in Dafny

The project models memcached 1.4.15 with the ramcube replication layer on top of it, and proves
what the parts keep and what the whole promises its clients.

- **The cache engine** (`assoc.c`, `items.c`, `slabs.c`, `do_store_item` and `do_add_delta` of
  `memcached.c`). `CacheState` describes the shared state on values; `CacheInvariant` is the one
  invariant that ties a chunk's free, linked and held status to table, queues, counters and
  reference counts; `CacheOps` and `Commands` are the operations and commands; `LossyMap` is what
  a client may observe, and `Refinement` and `Runs` show that every run observes nothing else.
  `Guarantees` adds what a map that may lose entries cannot say: what is not hidden and not
  disturbed; `TailRepair` is the one branch that breaks the invariant, and exactly when.
  `Presence` says on the fields of the items what a client can find; measured by it, `Answers` has
  the answer to every command and what is linked afterwards, `Lru` what a bump does and which item
  an allocation takes, `Survival` that over every run what was stored is read until something
  named happens to it, `Counting` what increments and decrements report, and `PageMoves` the
  progress of the page mover. None of these laws is told through the operations it is about.
  `Chains`, `Links`, `HashTable` and `ItemLists` are the pointer structures, `Cache` the engine's
  methods on them, each equal to a transition, and `Server` the commands and whole runs. A command
  is one atomic step: ramcube runs one worker thread (ramcube.c:280).
- **The lock hand-over** between the expansion thread and any number of workers: `LockModes`.
- **Input and output**: `Reply` (the gather list and partial writes), `Reader` (the input buffer
  and bodies), `Tokenizer` (command lines).
- **The ramcube protocols**: `Peers` (connections between nodes), `Acks` and `AckOrder`
  (acknowledging a set only after a backup has it), `Wire` (the text of a backup request).
- **The backup log** of `Segment.c`: `BackupLog`, and `Replay`: what replaying it gives, compared
  with the primary's entries.
- **The hash**: `Jenkins`, and `KnownHash`, one value worked out to the end.  **Numbers as text**: `Decimal`.  **Chunk sizes**: `SlabClasses`.

What comes from outside is a parameter: how many bytes a read or write takes, the order of
messages, the clock, the answers of memory allocation (`memOk`), the keys whose item lock another
thread holds (`blocked`), and the bytes of memory no code has written (`behind`, `gap`, `junk`).

Taken for granted: the hash passed along with a key is the key's; the clock does not run
backwards and is at least 2; `item_size_max` is a multiple of 8; `power_largest` is below 200
(`SlabClasses.SlabsInit` says for which settings). An allocation in whose way an item is overdue
(among the at most five items at the tail that do_item_alloc looks at one is unlocked, held, and
was last touched more than three hours ago) is not a step of a run: `TailRepair` proves that this
is exactly when the tail repair fires, and shows a run from the start that gets there.

`dafny verify dfyconfig.toml` checks everything.

## Model

| member | source | states |
|---|---|---|
| Server.Server.Serve | memcached.c:3802-4110 | any run of commands and background steps, with the hash table expanding and migrating in between whenever it likes, from an empty cache, on the pointer structures: every reply is one the lossy map allows |
| Server.Server.Execute | memcached.c:3243-3417 | one command or background step carried out by the engine's methods is exactly the transition `Commands.Step`, reply included, and keeps the invariant and the pointer structures |
| Server.Server.ProcessUpdate | memcached.c:2886-2972 | set, add, replace, append, prepend and cas: allocate the item the body is read into; a set that finds no room deletes the old item |
| Server.Server.CompleteNread | memcached.c:837-923 | a finished body is stored unless it does not end in CRLF, and the reference of the upload is dropped |
| Server.Server.ProcessGet | memcached.c:2745-2803 | a hit is answered with the item's bytes and id, bumped, and held until the reply is sent; a miss leaves no reference behind |
| Server.Server.ProcessDelete | memcached.c:3158-3208 | the transition of delete: a found item is unlinked, the reference of the look-up given back, and DELETED answered; NOT_FOUND otherwise (`Answers.DeleteLaw` says which on the fields of the items) |
| Server.Server.ProcessTouch | memcached.c:2974-3015 | a touch changes the expiry time, bumps the item and gives its reference back |
| Server.Server.ConnClose | memcached.c:482-518 | a connection that closes during an upload drops the item it was reading into |
| Commands.StepInv | memcached.c:3243-3417 | every enabled step of the 15 commands and background steps keeps the engine invariant |
| Runs.RunConforms | memcached.c:2285-2400 | in every run every reply is one a lossy map computed from commands and replies alone allows: nothing is invented, mixed up, resurrected or older than the latest store |
| Runs.HitIsLatestWrite | items.c:521-574 | the value of a hit was written under that key by an earlier event, has not expired, and no event in between wrote, deleted, flushed or missed the key |
| Runs.CasAtMostOnce | memcached.c:2300-2330 | of any number of attempts with the same key and id (cas, and append, prepend, incr and decr that carry an id) at most one succeeds in a run |
| Runs.StartInv | slabs.c:95-148 | the state after start-up satisfies the invariant and stands for the empty map |
| Refinement.StepRefines | memcached.c:2285-2400 | one step from any state that stands for a map: the reply is allowed, and the next state stands for the map that follows from the reply |
| Guarantees.ReaderUndisturbed | items.c:345-352 | from a hit until its release, over every interleaving, a reader keeps its reference and the bytes of its item do not change |
| Guarantees.StepKeeps | slabs.c:506-597 | no step changes the bytes of a held item, and a chunk the page mover has marked stays marked until the page is handed over |
| Guarantees.StepHolders | items.c:345-352 | only its own release takes a reader's reference away |
| Guarantees.StoredStaysShown | items.c:549-556 | in every run, what an event stores under a key is not hidden by any earlier flush, nor is what replaces it, as long as no flush_all follows |
| Guarantees.StepHides | items.c:549-556 | no step but flush_all makes an item count as flushed |
| Guarantees.PageAccount | slabs.c:186-218 | per class, slabs * perslab = sl_curr + chunks in use + chunks emptied by the mover, and of the last there are none unless a page of that class is being drained |
| Guarantees.MoveKeepsPages | slabs.c:599-641 | handing a page over keeps the number of pages all classes have together |
| TailRepair.RepairFires | items.c:107-137 | the walk up the tail comes to the repair if and only if one of the at most five items it looks at is linked, unlocked, held by somebody and was last touched more than three hours ago |
| TailRepair.RepairIff | items.c:107-137 | the condition under which module Commands allows an allocation is exactly that the repair does not fire; when it does, the item is in use |
| TailRepair.RepairKeepsInv | items.c:128-132 | forcing the count of an item and unlinking it keeps the invariant if and only if nobody holds the item |
| TailRepair.AllocIff | items.c:88-216 | do_item_alloc, repair included, keeps the invariant if and only if no item in its way is overdue, and is the transition `ItemAlloc` then; otherwise it hands out a chunk that somebody holds |
| TailRepair.RepairedDelta | memcached.c:3118-3154 | when the repair fires on the item incr or decr has looked up, the item ends up linked under its key and on the free list at once |
| TailRepair.IdleIncr | items.c:128-132 | a run from the start, set and three hours and a second of nothing, after which incr makes the repair fire on its own item, in every configuration that has a class for it |
| Presence.LookUpIff | items.c:521-574 | a look-up of k finds p if and only if p is linked under k, is not on the page being drained, was not stamped at or before a flush that has taken effect, and its expiry is 0 or in the future; what it does not find is linked no more |
| Answers.GetLaw | memcached.c:2745-2803 | get is a hit if and only if such an item exists; the reply has its flags, bytes and id, and one reference is taken to it; a miss leaves nothing under the key |
| Answers.TouchLaw | memcached.c:2974-3015 | Touched if and only if such an item exists; then its expiry is the new one, it has been bumped, and its content and id are what they were |
| Answers.DeleteLaw | memcached.c:3158-3208 | Deleted if and only if such an item exists, Miss otherwise; afterwards nothing is linked under the key |
| Answers.FlushLaw | memcached.c:3313-3326 | after an immediate flush_all no key is found |
| Answers.BodyChecked | memcached.c:837-850 | a body is refused if and only if its last two characters are not CR LF |
| Answers.CompleteMissing | memcached.c:2285-2400 | nothing is found under the key: add and set link the client's item, cas says not found, replace, append and prepend not stored, and nothing is linked under the key then |
| Answers.CompleteOver | memcached.c:2285-2400 | item o is found under the key: add refuses, set and replace store, cas stores if and only if the ids agree, append and prepend if and only if the id is 0 or agrees and an allocation for both data areas succeeds; stored is the client's item, or o's flags and expiry with the data joined in the order of the verb, under the next id; not stored leaves o linked as it was, bumped by add |
| Answers.CompleteReturns | memcached.c:837-923 | whatever the outcome, the upload is over and its reference given back |
| Answers.BeginLaw | memcached.c:2886-2972 | an upload begins if and only if an allocation succeeds, in a chunk nobody held, with the client's key, flags, expiry and id; a set without room leaves nothing under the key, the other verbs change nothing |
| Answers.DeltaMissing | memcached.c:3077-3093 | incr and decr answer not found if and only if the key is not found |
| Answers.DeltaLaw | memcached.c:3077-3156 | the answer of incr and decr to a found entry whose text reads v: id mismatch, not a number, no room, or a text that reads (v + d) mod 2^64, or v - d cut off at 0; that text is then linked with the old flags and expiry, otherwise the entry stays as it was |
| Answers.ReleaseLaw | items.c:345-352 | one reference less, and the chunk is free, the next of its class to be handed out, if and only if it was the last one to an item that is not linked |
| Answers.AbortLaw | memcached.c:482-518 | a connection that closes in the middle of an upload leaves nothing of it: the chunk is free |
| Answers.JustReadIsSafe | items.c:354-367 | an item whose read has bumped it, the reply being sent, is handed out by the next allocation only if its class has at most five items and no other of them is unlocked and unreferenced |
| Lru.BumpLaw | items.c:354-367 | a linked item stamped more than 60 seconds ago goes to the head of its queue, stamped now, and the others keep their order; otherwise nothing changes |
| Lru.ReadBumps | memcached.c:2826-2836 | a get that finds an item does this to it |
| Lru.AllocLaw | items.c:88-216 | which chunk an allocation takes: of the at most five items at the tail the last that is unlocked and unreferenced, if its expiry is past or it is flushed; else the head of the free list, or the last chunk of a new page; else that item if eviction is on; else none |
| Lru.EvictsOldest | items.c:107-184 | the linked item an allocation takes is, among those at most five that are unlocked and unreferenced, the one linked or bumped longest ago |
| Lru.HeadIsSafe | items.c:107-184 | the item at the head of a queue is taken only if the queue has at most five items and no other is unlocked and unreferenced |
| Lru.AllocIff | items.c:88-216 | an allocation succeeds if and only if the size has a class and there is a free chunk, a page to be had, or such an item that is dead or may be evicted |
| Lru.AllocFits | items.c:80-98 | what is handed out is a chunk of the least class that holds header, key and NUL, suffix, data and id |
| Survival.StepSurvives | items.c:521-574 | whatever the step: an item that is found stays linked with its bytes and id, and its expiry unless that is touched, if the step is no delete or write of its key, no flush, no set of its key without room, and does not hand its chunk out |
| Survival.RunSurvives | items.c:521-574 | in every run without such a step, and in which it neither expires nor gets on the page being drained, an item stays found with its content and id |
| Survival.StoredIsRead | items.c:521-574 | a get right after STORED is a hit, whatever was flushed before, if and only if the stored expiry is 0 or in the future and the item is not on the page being drained |
| Survival.StoredStaysRead | items.c:521-574 | in every run: what an event has stored (the client's bytes, the bytes joined to what was found, or the number reported) is what a later get returns, if no delete, flush, expiry, eviction, other write or page move has hit it in between |
| Counting.NextCount | memcached.c:3095-3124 | in every run, from replies alone: if the last write to a counter reported v, the next incr by d reports (v + d) mod 2^64 and the next decr v - d or 0 |
| Counting.IncrThenDecr | memcached.c:3095-3124 | incr by d and then decr by d report the number there was, if the sum is below 2^64 |
| Counting.DecrShrinks | memcached.c:3095-3124 | a decr never reports more than there was: 0 or the exact difference |
| PageMoves.ChunkLaw | slabs.c:506-597 | one chunk of the mover: left alone if and only if it has not been emptied and its lock is taken or somebody holds it, emptied otherwise, linked or not; every other chunk is as it was |
| PageMoves.CursorLaw | slabs.c:506-597 | the cursor goes on by one; at the end of the page the move is done if no chunk of the pass was left alone, and starts again otherwise |
| PageMoves.PassEnds | slabs.c:506-597 | in every run: a pass that meets no locked or held chunk ends the move, whatever commands go on in between |
| PageMoves.AskLaw | slabs.c:790-817 | a request is accepted if and only if no move is pending and two different classes are named, the first with a page to spare; the move then starts at the first chunk of its first page |
| PageMoves.StartLaw | slabs.c:443-495 | a request is taken up if and only if it is still possible, and withdrawn otherwise |
| PageMoves.EndLaw | slabs.c:599-641 | the page leaves one class for the other, all its chunks are free there, and no other chunk has changed |
| CacheOps.FlushAllInv | items.c:586-609 | after an immediate flush_all every item still linked is one look-ups treat as flushed: because the queues are sorted by time, the early stop of the walk misses nothing |
| CacheOps.ItemAllocInv | items.c:88-216 | what do_item_alloc returns nobody else holds: it was free, new, or linked with no other reference; all other items are unchanged |
| CacheOps.StoreInv | memcached.c:2285-2400 | do_store_item keeps the invariant and leaves exactly the references it found |
| CacheOps.AddDeltaInv | memcached.c:3077-3156 | do_add_delta keeps the invariant and leaves exactly the references it found |
| CacheProofs.LinkInv | items.c:291-312 | linking a held item under a key the table does not have keeps the ownership invariant |
| CacheProofs.DetachInv | items.c:314-329 | taking an item out of table and queue turns the table's reference into an outside one |
| CacheProofs.ReleaseInv | items.c:345-352 | dropping a reference keeps the invariant; the last one puts the chunk on its free list |
| CacheProofs.UpdateInv | items.c:354-367 | moving an item to the head of its queue keeps the queues sorted by time |
| CacheProofs.NewPageInv | slabs.c:195-218 | a new page keeps the invariant, the memory bound mem_limit + (non-empty classes) * item_size_max included |
| CacheProofs.MoveChunkInv | slabs.c:506-597 | one chunk of the page mover keeps the invariant: with no busy chunk met, everything behind the cursor is marked |
| CacheProofs.DrainedPageIdle | slabs.c:599-641 | once the page is drained, none of its chunks is linked, held, uploaded to, in a queue, on a free list or in the table |
| CacheProofs.FinishMoveInv | slabs.c:599-641 | re-splitting the drained page for the other class keeps the invariant |
| Cache.Cache.DoItemAlloc | items.c:88-216 | the walk up the tail, reclaim, slab allocation and eviction are the transition `ItemAlloc`, whatever locks others hold and whether memory is to be had, as long as no item in its way is overdue |
| Cache.Cache.SearchTail | items.c:107-184 | the walk looks at the last five items; it stops at the first that is unlocked and unreferenced, and is exhausted only when there is none |
| Cache.Cache.Probe | items.c:117-139 | an item is settled on if and only if its lock is free and the reference taken is the second |
| Cache.Cache.Settle | items.c:141-184 | the item settled on is reclaimed if stale, else kept while the slab allocator is asked, else evicted |
| Cache.Cache.DoItemLink | items.c:291-312 | linking is the transition `Link`: table, queue, counters, time, flags and cas id |
| Cache.Cache.DoItemUnlink | items.c:314-329 | unlinking is the transition `Unlink`, and does nothing to an item that is not linked |
| Cache.Cache.DoItemRemove | items.c:345-352 | dropping a reference is the transition `Release` |
| Cache.Cache.ItemFree | items.c:218-235 | the chunk is pushed on the free list of the class it was allocated from |
| Cache.Cache.DoItemUpdate | items.c:354-367 | bumping is the transition `Update`, at most once a minute, with the subtraction on unsigned 32 bits; `Lru.BumpLaw` says what it does to the queue |
| Cache.Cache.DoItemReplace | items.c:369-376 | unlink the old, link the new |
| Cache.Cache.DoItemGet | items.c:521-574 | look-up is the transition `Get`: held on a hit, unlinked when drained, flushed or expired; `Presence.LookUpIff` says when on the fields of the items |
| Cache.Cache.DoItemTouch | items.c:576-583 | look-up, then the expiry time is set |
| Cache.Cache.DoItemFlushExpired | items.c:586-609 | the walk over all queues is `FlushFrom` |
| Cache.Cache.FlushEverything | memcached.c:3313-3326 | flush_all without a delay is `FlushAll` |
| Cache.Cache.DoSlabsNewslab | slabs.c:195-218 | a page is added if and only if the limit or an empty class allows it and memory is to be had |
| Cache.Cache.DoSlabsAlloc | slabs.c:220-255 | the head of the free list, of a new page if the list is empty, or nothing |
| Cache.Cache.DoSlabsFree | slabs.c:257-279 | a chunk goes to the head of its free list |
| Cache.Cache.SplitSlabPageIntoFreelist | slabs.c:186-193 | all chunks of the page end up on the free list, the last one first |
| Cache.Cache.DoStoreItem | memcached.c:2285-2400 | all six verbs are the transition `Store`; `Answers.CompleteMissing` and `Answers.CompleteOver` say which outcome each has and what is linked then |
| Cache.Cache.Concatenate | memcached.c:2345-2395 | append and prepend: a new item with both data areas takes the old one's place, or nothing happens when there is no room |
| Cache.Cache.DoAddDelta | memcached.c:3077-3156 | incr and decr are the transition `AddDelta`; the branch that writes in place is never reached; `Answers.DeltaLaw` says what is computed |
| Cache.Cache.DoSlabsReassign | slabs.c:790-817 | the five answers and when each is given |
| Cache.Cache.SlabsReassignPickAny | slabs.c:774-788 | the first class after the last one picked, going round, that is not the target and has a page to spare; -1 if and only if there is none |
| Cache.Cache.DoSlabsReassignAny | slabs.c:790-817 | with source -1 the answer is never NOSPARE, and is BADCLASS if and only if the target is bad or no class can give a page |
| Cache.Cache.SlabRebalanceStart | slabs.c:443-495 | the request is taken up with the first page of the class, or withdrawn |
| Cache.Cache.SlabRebalanceMove | slabs.c:506-597 | up to slab_bulk_check chunks of the page, as a run of `MoveChunk` transitions |
| Cache.Cache.SlabRebalanceFinish | slabs.c:599-641 | the page changes class, the last page of the old class taking its slot |
| Cache.Cache.AssocExpand | assoc.c:125-144 | doubling the table changes nothing of what the cache stands for |
| Cache.Cache.AssocMaintenance | assoc.c:204-262 | moving any number of buckets changes nothing of what the cache stands for |
| HashTable.HashTable.AssocFind | assoc.c:77-101 | walking the one chain the hash selects finds the item if and only if the key is in the map |
| HashTable.HashTable.AssocInsert | assoc.c:154-176 | the item goes to the head of the chain look-ups search; expansion is asked for beyond 3/2 load |
| HashTable.HashTable.AssocDelete | assoc.c:178-196 | the item is cut out of its chain and nothing else changes |
| HashTable.HashTable.HashitemBefore | assoc.c:106-122 | what points at the item the key finds: its bucket, or the item in front of it in the chain |
| HashTable.HashTable.AssocExpand | assoc.c:125-144 | the old table stays behind, the new one starts empty, the map is unchanged |
| HashTable.HashTable.MoveOldBucket | assoc.c:214-236 | one old bucket is rehashed by rewriting h_next; the map is unchanged |
| HashTable.HashTable.MaintenanceRound | assoc.c:204-262 | any number of bucket moves in one go; the map is unchanged |
| Chains.InsertMeans | assoc.c:154-176 | an item is in the one chain its hash selects, also while the table is being expanded |
| Chains.MoveBucketMeans | assoc.c:214-236 | moving a bucket keeps what every look-up finds |
| Chains.MigrationEnds | assoc.c:214-239 | after n moves the cursor has advanced by n and nothing is lost or duplicated; the migration is over exactly when all old buckets have moved |
| Chains.ExpansionComplete | assoc.c:125-144 | an expansion takes exactly 2^(p-1) bucket moves and ends with the same map in one table |
| ItemLists.ItemLists.ItemLinkQ | items.c:250-266 | the item becomes the head of its queue; heads, tails, prev, next and sizes agree |
| ItemLists.ItemLists.ItemUnlinkQ | items.c:268-289 | the item is cut out from any place in its queue |
| ItemLists.ItemLists.PushSlot | slabs.c:257-279 | push on the doubly linked free list |
| ItemLists.ItemLists.PopSlot | slabs.c:240-250 | pop from the free list |
| ItemLists.ItemLists.CutSlot | slabs.c:525-537 | a free chunk is cut out from the middle of its list |
| SlabClasses.SlabsInit | slabs.c:95-148 | chunk sizes are 8-aligned, non-decreasing, and size * perslab <= item_size_max; the cache can use the result if and only if the size reached after 198 rounds of aligning and growing from sizeof(item) + chunk_size is above item_size_max / factor |
| SlabClasses.ClassCount | slabs.c:115-132 | class n is made if and only if the size reached by then is within item_size_max / factor, for every n |
| SlabClasses.TooManyClasses | slabs.c:115-132 | with factor 1.01 and 48-byte chunks all 200 classes are made, one more than items.c has queues for |
| SlabClasses.StandardClasses | slabs.c:115-132 | with a megabyte a page, factor 1.25 and 48-byte data the classes start at 96, 120, 152, 192, 240 and 304 bytes |
| SlabClasses.SlabsClsId | slabs.c:80-89 | the least class that fits; 0 if and only if the size is 0 or nothing fits |
| SlabClasses.ChunksDisjoint | slabs.c:186-193 | chunks of a page occupy disjoint byte ranges inside it |
| Decimal.PrintThenParse | util.c:14-37 | every 64-bit value survives printing and parsing, unless it is 2^63 or more and a minus sign follows in the string |
| Decimal.Length64 | memcached.c:3120-3124 | the text of a 64-bit value has at most 20 digits |
| Decimal.NoLeadingZero | memcached.c:3120-3124 | no number is printed with a zero in front |
| Decimal.NegativeText | util.c:24-32 | a negative text is refused up to 2^63 and wraps round beyond |
| Decimal.BehindMatters | memcached.c:3095-3100 | the number in a data area does not depend on the memory behind it if and only if a NUL ends it, or it is not all white space and the number is below 2^63 |
| Decimal.BehindReadAsValue | util.c:14-37 | inputs for both failures: an empty value takes another item's number, and 2^63 stops being a number |
| Decimal.SuffixKeepsFlags | items.c:80-86 | the flags are recovered from the header text when an item is rebuilt |
| LockModes.MoveIsAlone | assoc.c:206-239 | in every run, with any number of workers: while buckets are moved every worker has acknowledged the global lock and none is in, or about to enter, an item-locked section |
| LockModes.UnlockMatches | thread.c:124-159 | in every run a worker unlocks the mutex it locked, although item_unlock works it out anew |
| LockModes.Exclusion | thread.c:124-159 | two workers are in the section of one key together only during a hand-over and with different modes |
| LockModes.HalfwayRace | thread.c:174-201 | during a hand-over two idle workers can both enter the section of a key if and only if their modes differ |
| LockModes.RaceReached | thread.c:426-434 | a run from the start, with two workers, that gets there |
| LockModes.NoDeadlock | thread.c:161-201 | unless all is quiet some thread can take a step |
| Reply.Conn.EnsureIovSpace | memcached.c:674-695 | the array is doubled when full and every message still points at its own entries |
| Reply.Conn.AddMsghdr | memcached.c:240-276 | a new message starts at the end of the used entries; a datagram with room for its header |
| Reply.Conn.AddIov | memcached.c:704-751 | the bytes are appended to the reply, and a message is begun only when the one before has all the entries or all the bytes it may have |
| Reply.Conn.BuildUdpHeaders | memcached.c:757-791 | on any call while msgcurr is 0, the first and the repeated ones: every datagram not yet sent gets its own header and nothing else changes, although msg_iov of a datagram that has been sent points at the entry behind it |
| Reply.Conn.SendDatagrams | memcached.c:4044-4094 | on UDP, headers built again in every turn before the second datagram: what goes out is the datagrams in order, each once with its header, as many as there are successful turns |
| Reply.Conn.SendReply | memcached.c:4044-4094 | a reply that has been built, on TCP: for any counts sendmsg returns, what was sent and what is left are the reply |
| Reply.Conn.SendReplyUdp | memcached.c:4044-4094 | a reply that has been built, on UDP: the datagrams of the reply, headers filled in, in order |
| Reply.Conn.Transmit | memcached.c:3744-3800 | after a short write exactly the bytes taken are gone from the front; the four results and when each is returned |
| Reply.Conn.SendAll | memcached.c:4044-4094 | for any counts sendmsg returns: bytes sent followed by bytes left are the reply, and it ends |
| Reply.AnyOrder | memcached.c:757-791 | a reply can be put together from its datagrams, headers filled in, in any order of arrival, repeated or not |
| Reply.HeaderLaw | memcached.c:757-791 | the frame header holds request id, sequence number and number of datagrams in 16 bits each, most significant byte first, and a 0 |
| Reply.BytesAreBody | memcached.c:704-751 | on TCP nothing but the reply is sent |
| Reader.Input.ConnNread | memcached.c:3923-3980 | one turn stores stream bytes in order at the right place and nowhere else, copied out or in place |
| Reader.Input.ReadWholeBody | memcached.c:3923-3980 | for every way the stream is cut: exactly the next rlbytes bytes are stored and the rest of the stream is still to come |
| Reader.Input.SwallowAll | memcached.c:3982-4025 | exactly sbytes bytes are dropped and parsing resumes at the next |
| Reader.Input.Repack | memcached.c:1565-1612 | moving what is buffered to the front changes nothing of the stream |
| Reader.Input.TryReadNetwork | memcached.c:3614-3684 | reading more, the buffer growing up to four times, changes nothing of the stream |
| Reader.Input.TakeLine | memcached.c:3506-3551 | a line is handed over without its end if and only if one is buffered, and the cursor is behind it |
| Reader.SplitDoesNotMatter | memcached.c:3923-3980 | body and rest depend on the stream alone, not on how it was cut |
| Tokenizer.TokenizeCommand | memcached.c:2430-2472 | the first words in order, NUL-terminated in place, and a terminal token that is NULL or the unread rest |
| Tokenizer.NextBatch | memcached.c:2848-2857 | tokenizing again from the terminal token continues where the last call stopped |
| Tokenizer.ProcessGetCommand | memcached.c:2730-2857 | the key loop visits every word of the line exactly once, in order, and ends |
| Jenkins.Hash | hash.c:125-297 | the three loops for different alignments compute one byte-wise reference, for every key, length, alignment and initval |
| Jenkins.HashWords | hash.c:137-203 | the loop over 32-bit words, with masked reads of the last one |
| Jenkins.HashHalves | hash.c:205-249 | the loop over 16-bit words |
| Jenkins.HashBytes | hash.c:251-293 | the loop over bytes |
| Jenkins.SameHash | hash.c:125-297 | where a key lies in memory does not matter |
| Jenkins.MixBijection | hash.c:34-86 | mix is a bijection on triples of 32-bit words |
| KnownHash.Published | hash.c:89-297 | the hash of the public example of lookup3.c, worked out to the end, is the published 0x17770551: every rotation of mix and final counts |
| Peers.CompareIsOrder | ramcube.c:658-683 | comparing addresses is a strict total order, the same from either side, although it compares signed numbers in network byte order |
| Peers.LastOctetFirst | ramcube.c:658-683 | which of two addresses is less, on their octets: the last one decides first and counts as negative from 128 on, then the others from right to left, then the ports |
| Peers.Tables.PushBackProxy | ramcube.c:644-656 | the connection goes to the first free slot, or -1 when there is none |
| Peers.Tables.InitSmallerProxies | ramcube.c:502-574 | a connection and a TYPE message to every smaller peer, in order |
| Peers.Tables.ProcessCommandType | ramcube.c:1089-1218 | a listed peer is accepted, and answered with a connection if it is the greater one |
| Peers.Tables.GetBackupProxyByKey | ramcube.c:1279-1294 | the hash picks one of the outgoing connections; none if there is none |
| Peers.RunInv | ramcube.c:1089-1218 | in every run, whatever order messages arrive in, the connections of every two nodes match the messages on their way |
| Peers.AtMostOne | ramcube.c:502-574 | in every run no node has two connections to or from one peer |
| Peers.Connected | ramcube.c:502-574 | when all nodes have started and no message is on its way, two peers have exactly one connection each way if and only if each lists the other |
| Peers.NoEcho | ramcube.c:1089-1218 | connecting back never goes on: the answer to an answer is nothing |
| Peers.SlotsSuffice | ramcube.c:644-656 | with peer lists that fit their array no node ever has more connections than slots, and only to and from listed peers |
| Peers.RoomToAccept | ramcube.c:741-742 | in every run a connection that is accepted, and the one it is answered with, find a free slot, so the assertion holds |
| Peers.RoomToStart | ramcube.c:741-742 | in every run a node that starts has a free slot for every smaller peer |
| Acks.AcknowledgedAfterBackup | ramcube.c:904-925 | in every run, per connection: STORED written <= sets some backup has appended <= sets forwarded = requests on their way + replies on their way + replies read; and what a backup holds is what it appended if and only if its log lost nothing |
| Acks.Balance | ramcube.c:1221-1246 | the conservation law behind it, in every reachable state |
| Acks.MessagesUnderstood | ramcube.c:1297-1346 | both ends agree on which connection a message is about |
| Acks.Primary.PostSetData | ramcube.c:1297-1321 | the request goes to the one backup the hash of the key picks, and nothing to the client; nothing is sent if and only if the command does not fit the buffers of setCommandServer |
| Acks.Primary.SetCommandServer | Object.c:28-45 | the five pieces put together, if and only if they fit 2048 characters and the number fits 10 |
| Acks.Primary.ReadReply | ramcube.c:1323-1346 | STORED is written to the connection the reply names, and only for such a reply |
| Acks.HandleRequest | ramcube.c:904-925 | the text behind the line is appended, then answered; no answer if and only if it could not be appended, or nothing was asked |
| AckOrder.PoliteInTurn | memcached.c:884-891 | a client whose unanswered sets all go to one backup can take the k-th STORED for its k-th set, at any time in any run |
| AckOrder.RobustIff | memcached.c:884-891 | the k-th STORED can never come before the k-th set is appended if and only if no set of the client is appended before an earlier one and those not appended wait for one backup |
| AckOrder.TwoAreTooMany | memcached.c:884-891 | for any two items whose keys hash to different ones of two backups: a run from the start in which the client is misled |
| Wire.ParseIpPort | Segment.c:62-75 | the last line without its end |
| Wire.GetIp | Segment.c:93-101 | what precedes the colon |
| Wire.GetPort | Segment.c:103-118 | what the characters behind the colon add up to |
| Wire.AddressRecovered | Segment.c:62-118 | the sender's address is recovered from a message, whatever the command |
| Wire.CommandRecovered | Segment.c:166-340 | the request is read and exactly the command is appended, once, if and only if it is two lines long and shorter than 2048 characters together with the address |
| Wire.SetRecovered | Object.c:28-45 | a set is sent and reaches the log as meant if and only if the byte behind the key is a NUL, the value contains none, neither contains a newline, the memory behind the value does no harm, and 14 + the lengths of key, value, its length as text, that memory, ip and port is below 2048 |
| Wire.LongValueLost | Object.c:28-45 | for key k: from 2016 characters on the value runs over the backup's buffers, from 2030 on over the primary's |
| BackupLog.Backup.AppendToSegment | Segment.c:166-340 | for every request: the scan with its fixed command buffer appends exactly the pieces of the text, in order, to the sender's segment, and fails exactly where a buffer is written over, an end is run off or a null pointer is followed |
| BackupLog.Backup.AppendFirst | Segment.c:193-279 | create, replace or extend the segment, then store it if it is over capacity |
| BackupLog.Backup.Extend | Segment.c:236-246 | the command goes behind the tail; count, capacity and tail agree |
| BackupLog.Backup.Persist | Segment.c:382-440 | header, then every seglet with its object, under a name made of count and time |
| BackupLog.Backup.StoreFull | Segment.c:250-279 | a segment is written and dropped if and only if it is over capacity |
| BackupLog.Backup.GetLastSegment | Segment.c:146-153 | the walk always ends at NULL |
| BackupLog.ReadFile | Segment.c:489-535 | as many seglets as the name says, in order |
| BackupLog.ReadsBack | Segment.c:489-535 | what is written is read back |
| BackupLog.SameFile | Segment.c:395-401 | two segments go to one file if and only if they have the same master, count and second |
| BackupLog.AppendKeeps | Segment.c:193-279 | a command is added to all that is kept and nothing is lost if and only if no other master's segment is in memory and no file of that name exists |
| BackupLog.RunKeeps | Segment.c:166-340 | files in order and the segment in memory are together all commands received if and only if no step lost one |
| BackupLog.SetIsAppended | Object.c:28-45 | a set that is sent and arrives as meant is one step of the log |
| BackupLog.SecondMasterLoses | Segment.c:207-234 | a run in which a second master's command pushes the first one's segment out of memory |
| BackupLog.SameSecondLoses | Segment.c:395-408 | a run in which a segment overwrites the file of the one before |
| BackupLog.OneMasterKeeps | Segment.c:166-340 | with one master the files in order and the segment in memory are all commands received if and only if no file is written over |
| Replay.ReadsSet | Object.c:28-45 | the text a primary logs is read back as a set of the key and the value, without flags and expiry |
| Replay.StoreIff | memcached.c:884-899 | for every stored upload: the command logged for it sets exactly what was stored if and only if it has no flags, no older value was joined to it, and the entry does not expire |
| Replay.ReplayIff | memcached.c:884-899 | in every run, for an entry last written by an upload: replaying the log gives the entry of the primary if and only if that upload had no flags and no older value was joined to it, and the entry does not expire |
| Replay.OnlyUploads | memcached.c:884-899 | nothing else is logged: after a delete, an incr or a decr the replay is what it was before |

## Findings

Properties that look true of the code and are not, each with an input and with the exact
condition under which they hold.

| property | fails for | holds if and only if | members |
|---|---|---|---|
| item locks exclude (thread.c:124-159) | two workers in the middle of a hand-over, one with each kind of lock | the two have the same mode | LockModes.HalfwayRace, LockModes.RaceReached, LockModes.Exclusion |
| the k-th STORED means the k-th set is backed up (memcached.c:884-891) | two sets sent at once to two backups | the client's sets that are not appended wait for one backup, and none is appended before an earlier one | AckOrder.RobustIff, AckOrder.TwoAreTooMany |
| no command is lost by the log (Segment.c:193-279, 395-408) | a second master; two segments of equal count in one second | no other master's segment is in memory and no file of that name exists | BackupLog.AppendKeeps, BackupLog.RunKeeps, BackupLog.SecondMasterLoses, BackupLog.SameSecondLoses |
| a command sent is the command logged (Segment.c:166-340) | a value with a newline; a command of 2048 characters | the command has two lines and is shorter than 2048 characters together with the address | Wire.CommandRecovered, Wire.LongValueLost |
| a set arrives as it was stored (Object.c:28-45) | a reused chunk: the key and the value are read as C strings and nothing ends them; a value of 2016 characters under a key of one | the byte behind the key is a NUL, the value contains none, neither contains a newline, what lies behind the value is empty or whole lines that hold no second command, and 14 + the lengths of key, value, its length as text, what lies behind it, ip and port is below 2048 | Wire.SetRecovered, Wire.LongValueLost |
| the number incr sees is the item's (memcached.c:3095-3100) | an empty value in front of another item's digits; a value from 2^63 on with a minus sign behind it | a NUL ends it, or it is not all white space and below 2^63 | Decimal.BehindMatters, Decimal.BehindReadAsValue |
| a 64-bit number survives printing and parsing (util.c:14-37) | 2^63 with a minus sign later in the string | the number is below 2^63 or no minus sign follows | Decimal.PrintThenParse |
| do_item_alloc hands out a chunk nobody holds (items.c:128-132) | set k, three hours and a second of nothing, incr k | none of the at most five items at the tail the walk looks at is unlocked, held and was last touched more than three hours ago | TailRepair.RepairIff, TailRepair.AllocIff, TailRepair.IdleIncr, TailRepair.RepairedDelta |
| slabs_init fits items.c (slabs.c:115-132, items.c:39-42) | factor 1.01 with 48-byte chunks | the size reached after 198 rounds of aligning and growing from sizeof(item) + chunk_size is above item_size_max / factor | SlabClasses.SlabsInit, SlabClasses.ClassCount, SlabClasses.TooManyClasses |
| replaying the log gives what the primary holds (memcached.c:884-899, Object.c:28-45) | a set with flags or an expiry; append and prepend, logged as a set of the added part; incr, decr and delete, not logged at all | for an entry last written by an upload: the upload had no flags, no older value was joined to it, and the entry does not expire | Replay.ReplayIff, Replay.StoreIff, Replay.OnlyUploads |

## Left out

- Commands.Enabled: a step in which the tail repair would fire is none; `TailRepair` has what do_item_alloc and do_add_delta then do, but no run is followed beyond that.
- Cache.Cache.DoItemAlloc: requires that no item in its way is overdue, as do the methods that call it; `TailRepair.AllocIff` has the other case on values.
- Server.Server.Execute: commands are atomic, so two workers inside one command at once are not modelled; `LockModes` models the locks on their own.
- Acks.AcknowledgedAfterBackup: one request per delivery; after a request the source drops whatever else the buffer holds.
- Acks.Primary.PostSetData: what the primary does after it has written over a buffer is not modelled; it sends nothing for that set.
- BackupLog.Backup.AppendToSegment: what the backup does after it has written over a buffer or followed a null pointer is not modelled; it answers nothing.
- Reply.Conn.BuildUdpHeaders: requires an entry behind the only datagram when it is called after that has been sent; the source writes there without asking for it.
- Replay.ReplayIff: commands are taken to arrive as they were meant (`Wire.SetRecovered`) and none to be lost by the log (`BackupLog.RunKeeps`); cas ids are not compared.
- BackupLog.ReadFile: the seglet length is taken from the text, the tail pointer of a segment that was read back is not claimed, and reading a directory in the order the system lists it is not modelled.
- Peers.Tables.ProcessCommandType: connecting itself always succeeds; TYPE messages wait for a node that has not started; the roles (backup, ping, coordinator) do not interact and are modelled one at a time.
- Reader.Input.TakeLine: the closing of a connection on a line that gets too long, and the jump to the end of the buffer after a backup request, are not part of it.
- Reply.Conn.AddIov: allocation succeeds.
- Jenkins.Hash: the little-endian variant; memory consists of whole words, so the masked reads past the end of a key stay inside it.
- Decimal.SafeStrtoull: the unsigned 64-bit parser only.
- The count of requested bytes per slab class, which the page mover does not adjust.
- Statistics, the fetched flag, and the 16-bit width of the reference count.
- Delayed flush_all: a later one replaces `oldest_live`, so the flush claims are about immediate ones.
- `slab_list` growth and slab preallocation: slab lists are sequences; memory for a page is asked for page by page.
- Automatic page moves (`slab_automove_decision`): the moves it asks for are any requests.
- The links a chunk carries while it is in no list, and the writes that clear them.
- The binary protocol's dispatch, noreply, the UDP request address, `update_event` failures, sockets, libevent, SASL, DTrace and stats output.
- Heartbeats, recovery (`send_to_recovery`, the hard-coded recovery addresses) and the coordinator: unfinished in the source.
- The connection free list, the `cq_*` queue, cache.c and stats.c prefixes: stacks, queues and counters.
