# DMA buffers, bulk handles and blob contexts of the BIO layer

This project models the block I/O layer under `src/bio`: the per-xstream DMA buffer from which I/O descriptors reserve
memory, the cache of bulk handles that draws chunks from the same buffer, the protocol by which descriptors queue, wait,
transfer and release, the copy between descriptors and scatter/gather lists, and the metadata contexts around blobs. It
proves what these parts promise: memory of two reservations never overlaps, transfers move exactly the extents that were asked
for, counters and lists agree in every reachable state, nobody waits for nobody, and failed operations leave nothing behind.

## How it is organised

- `BioTypes`, `Pool`: extents, regions, chunks, groups, handles and descriptors as values, and the meaning of each C function
  as a function on them. What the environment decides (whether memory or a bulk registration can be had) is part of the input.
- `PoolInv`: the invariant of the buffer together with everything its descriptors hold. `ReserveProofs`, `MapProofs`,
  `HandleProofs`, `BulkProofs`, `GroupProofs`, `ReleaseProofs`, `Rounding` show that single steps keep it; `Mapping`, `MapRun`,
  `ReleaseRun` put them together for whole descriptors.
- `DmaBuffer`, `BioDesc`, `Search`, `Lookup`: the same code in place, with its loops, proved to compute these functions. The
  assertions of the C code on chunks, regions, groups and handles are asserts or preconditions that the callers meet; "Left
  out" names those that are not.
- `Packing`: how many chunks a list of extents needs, computed from the extents and the chunk size alone.
- `Transfer`, `Refinement`, `Copy`: what the transfers and copies do to bytes.
- `Protocol`, `ProtocolInv`, `Inflight`: the concurrency protocol as a step system. A step is everything that happens between
  two points where a descriptor may yield; completions are steps of the environment.
- `Runs`, `Guarantees`, `Starvation`: both together, for any number of descriptors in any interleaving.
- `DataRuns`, `CopyRuns`: such runs with their bytes. Each transfer is issued, takes effect byte by byte in any order and is
  completed, or fails and leaves anything in its own range, between the steps of all other descriptors; callers fill their
  buffers in between.
- `Context`: holdings, blob creation and opening with rollback, and batched unmap.
- `Folding`, `SeqLib`: a marker for folded predicates, and sequences without repetition.

A model-only field is marked as such where it is declared: the handle a region lies in, the list a chunk's link is on, and the
counters and order logs of the protocol.

## Three things about the code

- `iod_should_retry` asserts that some descriptor is active when a copy destination runs short of memory. This fails when the
  source of the copy is accessed in place, so that it never became active, no other descriptor is active, and the destination
  needs more chunks than the whole buffer may have. `Starvation.StarvedRun` is such a run, from a new buffer and with concrete
  extents. `Starvation.AssertsExact` shows for every reachable state that no other assertion of the protocol fails and that,
  with memory granted, this one fails exactly then. The comment in the function, that without active descriptors "the whole
  DMA buffer isn't large enough", is `Starvation.ShortMeansTooLarge`.
- `page2io_unit` divides before it multiplies, so it is exact only if the I/O unit of the blobstore divides the page size
  (`Transfer.IoUnitsExact`).
- `nvme_rw` tests once per region whether the blob is valid and may yield before each transfer. A blob that starts to close in
  between gets the transfer nevertheless: `Inflight.LateTransfer` and `Inflight.LateExact` say when.

## Model

| member | source | states |
|---|---|---|
| MapProofs.ExpandSpan | src/bio/bio_buffer.c:762-807 | continuing an NVMe region for an extent that starts in the page where it ends: the widened region spans exactly the reserved pages, keeps its first page, also when the extent starts before the region, and the extent keeps the region's distance between buffer and blob |
| MapProofs.PadSpan | src/bio/bio_buffer.c:810-839 | an SCM extent packed into the rest of a page starts where the last region ends and touches no further page |
| MapProofs.ExpandInv | src/bio/bio_buffer.c:762-807 | expanding keeps the whole buffer invariant and leaves the last region at the cursor of its chunk |
| MapProofs.FreshInv | src/bio/bio_buffer.c:964-1005 | switching to an idle chunk always leaves room for the extent, keeps the invariant and leaves the region at the cursor |
| MapProofs.HugeInv | src/bio/bio_buffer.c:881-904 | an oversize extent gets a chunk of its own, with one reference and on no list, and the invariant is kept |
| ReserveProofs.AddRefCore | src/bio/bio_buffer.c:659-689 | one more entry in a chunk array and one more reference on the chunk keep all reference counts exact |
| Mapping.MapOneInv | src/bio/bio_buffer.c:843-1005 | mapping one extent outside the cache keeps the invariant on every path, gives the extent a buffer in the last region, never overflows, and on failure leaves the descriptor as it was |
| Guarantees.MergeInvariant | src/bio/bio_buffer.c:762-807 | after any sequence of extents the last NVMe region ends at the page cursor of its chunk, and all extents of one region have the same distance between buffer and blob |
| Rounding.RoundUpSpec | src/bio/bio_bulk.c:600-605 | the rounded size is between request and chunk, gives as many handles per chunk, is the largest such size, and rounding is idempotent |
| Mapping.UseSharedInv | src/bio/bio_bulk.c:461-487 | an extent that shares a handle starts exactly where the previous one in the handle ends, inside the window, and the invariant is kept |
| Mapping.BypassCases | src/bio/bio_bulk.c:533-552 | with the cache, dma_map_one is reached only for holes, direct SCM access and huge extents |
| Mapping.BulkMapOneInv | src/bio/bio_bulk.c:608-675 | mapping one extent through the cache keeps the invariant and records a handle exactly for extents that are neither empty nor bypassed |
| Mapping.FindIdleInv | src/bio/bio_bulk.c:490-530 | finding a handle keeps the invariant and yields an idle handle of the requested size, or changes no handle |
| GroupProofs.GrpGetInv | src/bio/bio_bulk.c:214-250 | the group lookup agrees with a plain search and returns none exactly if no group has the size, all slots are taken and none is idle |
| GroupProofs.ReclaimInv | src/bio/bio_bulk.c:253-274 | reclaiming keeps the invariant, so it never takes a chunk with a held handle, and spares the excluded group |
| GroupProofs.EvictAllCore | src/bio/bio_bulk.c:159-170 | evicting an idle group keeps the invariant and leaves the group without chunks and idle handles |
| GroupProofs.GrpGrowInv | src/bio/bio_bulk.c:355-392 | growing a group keeps the invariant and on success the group has an idle handle |
| GroupProofs.SortedIsUnique | src/common/sort.c:26-57 | two strictly increasing lists of the same groups are equal, so any way of sorting gives the same index |
| HandleProofs.UnholdCore | src/bio/bio_bulk.c:395-417 | giving back one use of a handle keeps the invariant |
| HandleProofs.TakeHdlCore | src/bio/bio_bulk.c:428-445 | holding an idle handle keeps the invariant |
| ReleaseProofs.DropRefInv | src/bio/bio_buffer.c:388-417 | one round of the release loop keeps the invariant, whether the chunk is huge, still referenced or goes idle |
| ReleaseRun.ReleaseInv | src/bio/bio_buffer.c:354-424 | releasing leaves the descriptor with nothing and keeps the invariant for everybody else |
| ReleaseRun.BytesDisjoint | src/bio/bio_buffer.c:593-618 | the bytes of two regions never overlap, of one descriptor or of two |
| ReleaseRun.BytesInside | src/bio/bio_buffer.c:593-618 | every region lies inside its chunk |
| ReleaseRun.ResetIsSafe | src/bio/bio_buffer.c:388-417 | a pooled chunk whose page cursor is zero carries no reservation |
| MapRun.MapAllInv | src/bio/bio_buffer.c:1367-1424 | mapping any list of extents with any answers of the environment keeps the invariant; on success each extent lies in its region, no region covers more than its extents, and the handle array matches the list |
| MapRun.WidenPages | src/bio/bio_buffer.c:762-807 | the pages of a widened region are those of the region and of the new extent |
| Lookup.IodBulk | src/bio/bio_bulk.c:772-812 | the lookup returns the entry of extent (s, i) in the flattened order, none for a descriptor without the cache, and the offset the entry notes; its assertions hold |
| Lookup.BulkOfExtent | src/bio/bio_bulk.c:772-812 | after a full mapping that entry is the held handle that contains the extent, and empty exactly for empty or bypassed extents; the offset is where the request starts in the buffer of an exclusive extent, and the start of the handle for a shared one |
| Search.FindGroupGe | src/common/sort.c:79-130 | the binary search returns the least index whose group is not smaller than the key, or -1 |
| Search.SortSlots | src/common/sort.c:26-57 | sorting with the unique flag fails exactly on equal keys and otherwise orders the same slots |
| Search.ResortIsInsert | src/bio/bio_bulk.c:205-208 | sorting the index again after one group changed its size puts that group where an insertion would |
| DmaBuf.DmaBuffer.GrowBy | src/bio/bio_buffer.c:94-115 | adds chunks to the idle list up to the first allocation failure |
| DmaBuf.DmaBuffer.ChunkReserve | src/bio/bio_buffer.c:593-618 | reserves exactly if the chunk is not huge and has room, and moves its cursor; the preconditions are its assertions |
| DmaBuf.Unlink | src/bio/bio_bulk.c:102-129 | exactly the handles of the chunk, all of them on the idle list, leave it, in order |
| DmaBuf.DmaBuffer.EvictChunk | src/bio/bio_bulk.c:132-145 | computes the eviction of one idle chunk of a group |
| DmaBuf.DmaBuffer.GroupIsIdle | src/bio/bio_bulk.c:90-99 | tells whether all chunks of the group are idle |
| DmaBuf.DmaBuffer.EvictGroup | src/bio/bio_bulk.c:159-170 | evicts all chunks of an idle group, after which its lists and counts are empty |
| DmaBuf.DmaBuffer.ReclaimChunk | src/bio/bio_bulk.c:253-274 | takes the first idle chunk of the least recently used group that has one |
| DmaBuf.DmaBuffer.AddGroup | src/bio/bio_bulk.c:173-211 | computes the new group: a free slot, or the least recently used idle group emptied and resized |
| DmaBuf.DmaBuffer.FindGroup | src/bio/bio_bulk.c:214-241 | finds a group of exactly the requested size if and only if there is one |
| DmaBuf.DmaBuffer.GetGroup | src/bio/bio_bulk.c:214-250 | computes the group lookup with its LRU update |
| DmaBuf.DmaBuffer.MakeIdle | src/bio/bio_buffer.c:630-656 | makes the idle list non-empty by growing or reclaiming, or reports a shortage |
| DmaBuf.DmaBuffer.PopulateChunk | src/bio/bio_bulk.c:304-352 | gives the handles of an idle chunk that has none yet their windows and puts them on the idle list |
| DmaBuf.DmaBuffer.GrowGroup | src/bio/bio_bulk.c:355-392 | computes the growth of a group by one chunk, with all failures |
| DmaBuf.DmaBuffer.FindIdleGroup | src/bio/bio_bulk.c:504-524 | computes the search for a group with an idle handle |
| BioDescriptor.ExpandReserves | src/bio/bio_buffer.c:603-608 | when iod_expand_region reserves, the page index is the cursor of the chunk or the page before it, so the assertions of chunk_reserve hold |
| BioDescriptor.BioDesc.ExpandRegion | src/bio/bio_buffer.c:762-807 | expands the last region exactly if it can, and then computes the widened region and the buffer; all its assertions hold |
| BioDescriptor.BioDesc.PadRegion | src/bio/bio_buffer.c:810-839 | tells exactly when the rest of the last page can be used, and where |
| BioDescriptor.BioDesc.MapBehindLast | src/bio/bio_buffer.c:907-945 | tries region, page and chunk of the last region in this order and leaves everything alone if none fits |
| BioDescriptor.BioDesc.MapExtent | src/bio/bio_buffer.c:843-1005 | computes dma_map_one on every path and asks for a retry exactly on a shortage |
| BioDescriptor.BioDesc.SharedHandle | src/bio/bio_bulk.c:461-487 | reuses the latest handle exactly if it can be shared and has room |
| BioDescriptor.BioDesc.GetHandle | src/bio/bio_bulk.c:490-530 | computes the handle for an extent, shared or new |
| BioDescriptor.BioDesc.BulkMapExtent | src/bio/bio_bulk.c:608-675 | computes bulk_map_one on every path |
| BioDescriptor.BioDesc.MapLists | src/bio/bio_buffer.c:556-590 | goes through all lists in order up to the first failure, which is mapping the flattened list |
| BioDescriptor.BioDesc.ReleaseHandles | src/bio/bio_bulk.c:678-701 | gives back every recorded handle once |
| BioDescriptor.BioDesc.ReleaseChunks | src/bio/bio_buffer.c:388-417 | drops one reference per entry of the chunk array |
| BioDescriptor.BioDesc.ReleaseBuffer | src/bio/bio_buffer.c:354-424 | releases everything and keeps the invariant, on all early returns |
| BioDescriptor.BioDesc.TryMap | src/bio/bio_buffer.c:1383-1419 | one round of the retry loop: everything is mapped, or nothing is held and the caller learns whether to wait |
| Transfer.NvmeRw | src/bio/bio_buffer.c:1135-1215 | the loop issues the page transfers of a region, each at most one chunk long |
| Transfer.DmaRw | src/bio/bio_buffer.c:1218-1248 | the loop issues the transfers of all regions in order |
| Transfer.IoUnitsExact | src/bio/bio_internal.h:486-489 | page addresses in I/O units are exact for all pages if and only if the unit divides the page size |
| Transfer.NvmeOpsIn | src/bio/bio_buffer.c:1135-1215 | every transfer stays inside its region and moves all bytes by the same distance |
| Transfer.NvmeOpsCover | src/bio/bio_buffer.c:1135-1215 | every byte of the region is in some transfer |
| Transfer.FetchByte | src/bio/bio_buffer.c:1115-1248 | reads in any order, repeated, and between steps of others bring into each byte its own byte of the medium |
| Transfer.UpdateByte | src/bio/bio_buffer.c:1115-1248 | writes likewise put out each byte to its own place |
| Transfer.OutsideByte | src/bio/bio_buffer.c:1115-1248 | a byte of a medium outside all regions is never written |
| Refinement.MappedPrepared | src/bio/bio_buffer.c:1367-1424 | a mapping that succeeds meets the premises of the fetch and update theorems |
| Refinement.FetchRefines | src/bio/bio_buffer.c:1427-1488 | a finished fetch leaves the raw buffer of every extent that is no hole equal to the bytes [off, end) of its medium |
| Refinement.UpdateRefines | src/bio/bio_buffer.c:1509-1540 | a finished update of extents that share no page leaves every extent on its medium equal to the bytes copied for it |
| Refinement.UpdateFrame | src/bio/bio_buffer.c:1509-1540 | an update changes no byte outside the SCM ranges and NVMe pages of its extents |
| Refinement.ScmCopied | src/bio/bio_buffer.c:1115-1122 | the assertions of scm_rw: SCM goes through DMA memory only for RDMA and only if SCM is not used for RDMA itself |
| Refinement.OthersLeave | src/bio/bio_buffer.c:1115-1248 | transfers of another descriptor leave this one's memory alone |
| Copy.CopyArgs.CopyOne | src/bio/bio_buffer.c:444-532 | copies one extent: success exactly if the iovs have room behind the cursor, with the exact error otherwise; the loop ends because each turn moves a byte |
| Copy.ConsumedPrefix | src/bio/bio_buffer.c:502-513 | iov_len and sg_nr_out record exactly the consumed prefix |
| Copy.CopySgl | src/bio/bio_buffer.c:570-587 | byte k of the concatenated extents is byte k of the concatenated iovs in either direction, holes write nothing, and the exact return code |
| Copy.IodCopy | src/bio/bio_buffer.c:1572-1586 | copies all lists: success exactly if prepared, the numbers of lists agree and every list has room; the first list that fails decides the error |
| Copy.StreamSlice | src/bio/bio_buffer.c:444-532 | after an update extent j holds the slice of the input that starts behind the extents before it |
| Packing.MappingIsPacking | src/bio/bio_buffer.c:843-1005 | while nobody else holds anything, mapping a list outside the cache follows the packing: it runs short only if it needs more chunks than there are, and with memory granted exactly if it needs more than there may be |
| Packing.NeededBound | src/bio/bio_buffer.c:907-983 | a list that needs more chunks than there may be has more pages than half of the buffer |
| ProtocolInv.StepInv | src/bio/bio_buffer.c:1267-1540 | every step of the protocol keeps its invariant |
| ProtocolInv.RunInv | src/bio/bio_buffer.c:1267-1540 | the protocol invariant holds in every reachable state |
| ProtocolInv.WaitInv | src/bio/bio_buffer.c:1267-1281 | a descriptor that starts to wait and was not queued finds the FIFO empty |
| ProtocolInv.FifoAdmission | src/bio/bio_buffer.c:1284-1326 | bdb_queued_iods counts the descriptors in the FIFO, a non-empty FIFO has one head and all others wait on bdb_fifo, and descriptors leave in queueing order |
| ProtocolInv.NoLostWakeup | src/bio/bio_buffer.c:1251-1281 | a sleeping head implies an active descriptor (besides its own source) |
| ProtocolInv.NeverStuck | src/bio/bio_buffer.c:1251-1326 | as long as anyone is queued, the head can run or some descriptor is active |
| ProtocolInv.RetryBound | src/bio/bio_buffer.c:1378-1416 | without non-blocking arrivals the head waits at most as often as there were active descriptors at its first wait |
| ProtocolInv.ExactlyOnce | src/bio/bio_buffer.c:1030-1081 | a descriptor left the active ones once per successful preparation but for the buffer it holds, bd_inflights is the outstanding transfers plus the bias, and a posted buffer is held only while transfers are outstanding |
| ProtocolInv.ReleaseWhenDone | src/bio/bio_buffer.c:1509-1540 | a step that gives a buffer back does so with no transfer outstanding |
| ProtocolInv.DmaWaitWakes | src/bio/bio_buffer.c:304-320 | a descriptor that waits for its transfers can go on exactly when none is outstanding |
| ProtocolInv.OnlyStarved | src/bio/bio_buffer.c:1251-1326 | no assertion of the protocol fails but the one on copy destinations |
| Inflight.NetStepInv | src/bio/bio_context.c:1190-1268 | every event keeps bxb_blob_rw, bic_inflight_dmas and bca_inflights exact, and a blob that passed the test of nvme_rw stays valid until a close message is sent |
| Inflight.Conservation | src/bio/bio_buffer.c:1030-1050 | these counts are exact in every reachable state |
| Inflight.NoUnderflow | src/bio/bio_context.c:158-170 | a completion finds all its counters positive |
| Inflight.CloseWhenIdle | src/bio/bio_context.c:995-1052 | closing sends its message exactly if the blob is open and not closing, no transfer of the context is outstanding and no unmap call is in progress |
| Inflight.LateTransfer | src/bio/bio_buffer.c:1162-1183 | in every reachable state a transfer is handed over on a closed or closing blob only if a close message was sent after the test at the start of the region |
| Inflight.LateExact | src/bio/bio_buffer.c:1162-1183 | a close after that test leads to a transfer on a closing blob exactly if nothing else of the context is in flight |
| Runs.StepInv | src/bio/bio_buffer.c:1367-1488 | every step of any descriptor keeps buffer, protocol and the link between them |
| Runs.RunInv | src/bio/bio_buffer.c:1367-1540 | the invariant of the whole system holds in every state that any interleaving can reach |
| Starvation.NobodyActive | src/bio/bio_buffer.c:1255-1263 | when no descriptor is active, no chunk is used and no bulk handle is held |
| Starvation.ShortMeansTooLarge | src/bio/bio_buffer.c:1251-1264 | in every reachable state without active descriptors, a list outside the cache runs short of chunks exactly if it needs more than the buffer may have (memory granted), and then it has more pages than half of the buffer |
| Starvation.AssertsExact | src/bio/bio_buffer.c:1251-1264 | in every reachable state all assertions of the protocol hold, except that of iod_should_retry, which fails exactly if a copy destination tries to map, nobody is active and it needs more chunks than the buffer may have (memory granted) |
| Starvation.StarvedRun | src/bio/bio_buffer.c:1881-1904 | a run from a new buffer in which that assertion fails: a source in SCM, and a destination of two chunks for a buffer of one |
| Guarantees.Isolation | src/bio/bio_buffer.c:593-618 | in every reachable state no byte of DMA memory is in two reservations |
| Guarantees.InsideChunk | src/bio/bio_buffer.c:593-618 | in every reachable state each reservation lies inside an existing chunk |
| Guarantees.CursorReset | src/bio/bio_buffer.c:403-416 | in every reachable state a pooled chunk with cursor zero carries no reservation |
| Guarantees.ChunkConservation | src/bio/bio_buffer.c:74-115 | in every reachable state each pooled chunk is on one list, the totals and per-type counts agree, and references count the entries of all chunk arrays |
| Guarantees.HandleAccounting | src/bio/bio_bulk.c:304-445 | in every reachable state idle lists, idle counts and use counts of handles are exact and the group index is right |
| Guarantees.GroupLookup | src/bio/bio_bulk.c:214-250 | in every reachable state the group lookup agrees with a plain search |
| Guarantees.BulkInRun | src/bio/bio_bulk.c:772-812 | in every reachable state the lookup finds for each extent of a prepared descriptor its handle and offset, and its assertions hold |
| Guarantees.PathSeparation | src/bio/bio_buffer.c:388-395 | a chunk array never holds a chunk of a bulk group, and the release-time assertions hold |
| Guarantees.WaitersHoldNothing | src/bio/bio_buffer.c:1383-1412 | a queued descriptor holds no buffer, and the head can run or somebody else is active |
| Guarantees.NothingInUse | src/bio/bio_buffer.c:118-133 | when no descriptor is active, the used list is empty |
| Guarantees.PreparedInRun | src/bio/bio_buffer.c:1427-1488 | a prepared descriptor of a reachable state meets the premises of the fetch and update theorems |
| DataRuns.StepInv | src/bio/bio_buffer.c:1030-1248 | every step of descriptors, SPDK and callers keeps: no transfer without an error gets lost, as many are handed over as bd_inflights says, and memory and media agree on each byte that was transferred |
| DataRuns.RunInv | src/bio/bio_buffer.c:1030-1540 | this holds in every state that any run with data can reach |
| DataRuns.FetchInRun | src/bio/bio_buffer.c:1427-1488 | in every run, when a prepared fetch is back with its caller, the buffer of every extent that is no hole holds its bytes of the medium, as they are and as they were when the reads began |
| DataRuns.UpdateInRun | src/bio/bio_buffer.c:1509-1540 | in every run, when a posted update gives its buffer back without an error, synchronously or with its last completion, every extent on its medium holds the bytes its buffer held when the writes began |
| DataRuns.NoWildTransfer | src/bio/bio_buffer.c:1115-1248 | no step of a run changes DMA memory that no prepared descriptor holds, and transfers, failed ones included, change no byte of a medium outside the regions of posted updates |
| CopyRuns.IovsReachMedia | src/bio/bio_buffer.c:1509-1586 | in every run, an update whose lists were copied by bio_iod_copy and whose buffers were not filled again leaves extent j of list n on its medium equal to its slice of the concatenated iovs of that list |
| Context.Stores.BlobDelete | src/bio/bio_context.c:333-393 | holdings are balanced and the blob is gone or noted as leaked |
| Context.Stores.BlobCreate | src/bio/bio_context.c:459-571 | holdings are balanced including the nested delete, and a failure leaves no new blob but one that it could not delete |
| Context.Stores.CtxOpen | src/bio/bio_context.c:574-611 | holdings are balanced and a context exists exactly on success |
| Context.Stores.CtxClose | src/bio/bio_context.c:1055-1077 | holdings are balanced and the context is gone unless the store could not be held |
| Context.Stores.McCreate | src/bio/bio_context.c:632-781 | all or nothing: a failure leaves exactly those of its blobs that it could not delete, success leaves exactly those asked for, and every context opened is closed or was tried |
| Context.Stores.McOpen | src/bio/bio_context.c:898-992 | a failure returns no context and has tried to close each one it opened; success returns exactly the contexts it opened |
| Context.UnmapBatch | src/bio/bio_context.c:1190-1268 | one batch hands over exactly its extents, and bca_inflights counts them |
| Context.UnmapSgl | src/bio/bio_context.c:1271-1292 | on success every extent is unmapped once, in order, in full batches but the last; on failure a prefix is |

## Left out

- Copy.IodCopy: the bound `ca_size_tot` that only `bio_copy_run` sets is not modelled; `bio_iod_copy` runs without it.
- DataRuns.FetchInRun: a write to a part of a medium for which another descriptor holds a buffer is not a step of the runs; the
  layer above keeps such accesses apart. All descriptors of a run work on one blob.
- DataRuns.UpdateInRun: likewise, and for extents that share no page; an extent that is accessed in place has no transfer.
- Search.SortSlots: states what `daos_array_sort` returns, not how its comb sort goes about it.
- Context.UnmapSgl: asks for a positive batch size, as `bio_nvme_init` turns zero into the largest number; which failed unmap is
  reported is not claimed, because each completion overwrites the result.
- ProtocolInv.NoLostWakeup: copy pairs are in the safety invariants, but nothing is claimed about their progress.
- Starvation.AssertsExact: for a copy destination, which `bio_copy_prep` always maps outside the bulk cache; if memory is
  refused, the assertion is shown to hold when the destination needs no more chunks than the buffer has.
- Assertions on NULL pointers, on the flags for deduplicated and gang addresses, on the sizes of the arrays for regions and
  chunks, and on the revert after a failed allocation of such an array.
- Failing allocations of small arrays (`D_ALLOC`) in the reservation path count as succeeding.
- Integer widths: sizes, offsets and counters are unbounded.
- `bd_nvme_bytes`, telemetry gauges, logging, `dump_dma_info`, NUMA choice and checks for Valgrind.
- Gang addresses, injected faults and the bypass switches for benchmarks.
- The completion callback `bd_completion`, and I/O contexts without NVMe (`bic_xs_ctxt` unset).
- Freeing the bulk registrations of chunks at shutdown, and `dma_buffer_shrink`.
- How `bio_blob_open` and `bio_blob_close` behave when called asynchronously during device setup and teardown.
- Device discovery, health monitoring, configuration files and the write-ahead log.
