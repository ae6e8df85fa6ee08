/** The per-xstream DMA buffer (`struct bio_dma_buffer`) with its bulk-handle cache
    (`struct bio_bulk_cache`), and what one I/O descriptor has reserved from it
    (`struct bio_rsrvd_dma`, `bd_bulk_hdls`), as values.  Every function here is the meaning of one
    C function of bio_buffer.c or bio_bulk.c; the classes in DmaBuffer.dfy run the same steps in
    place and are proved to compute these functions.

    The functions are total: looking up a chunk, handle or group that does not exist gives a zeroed
    one.  PoolInv.dfy states that this never happens. */
module Pool {
  import opened BioTypes
  import opened SeqLib

  /** `bio_chk_sz` (pages per chunk), `bio_chk_cnt_max`, BIO_BULK_GRPS_MAX, `bio_scm_rdma` */
  datatype Config = Config(chkSz: nat, chkMax: nat, grpMax: nat, scmRdma: bool)
  {
    predicate Valid() {
      0 < chkSz && chkSz % 2 == 0 && 0 < grpMax
    }
  }

  /** The list a chunk's `bdc_link` is on.  A huge chunk is on none. */
  datatype Loc = Unlinked | OnIdle | OnUsed | InGrp(g: nat)

  /** `struct bio_dma_chunk`; `pages` is its size, `bulks` says whether `bdc_bulks` is allocated. */
  datatype Chunk = Chunk(pages: nat, pgIdx: nat, refs: nat, ctype: ChkType, loc: Loc,
                         grp: Option<nat>, bulks: bool, bulkCnt: nat, bulkIdle: nat)

  /** `struct bio_bulk_hdl` */
  datatype Hdl = Hdl(pgIdx: nat, bulkOff: nat, used: nat, remote: nat, inuse: nat, shareable: bool)

  /** `struct bio_bulk_group` */
  datatype Group = Group(pgs: nat, chkCnt: nat, chks: seq<ChunkId>, idleHdls: seq<HdlRef>)

  datatype Pool = Pool(cfg: Config, next: ChunkId, heap: map<ChunkId, Chunk>,
                       idle: seq<ChunkId>, used: seq<ChunkId>,
                       cur: map<ChkType, ChunkId>, usedCnt: map<ChkType, nat>, tot: nat,
                       hdls: map<HdlRef, Hdl>,
                       grps: seq<Group>, sorted: seq<nat>, lru: seq<nat>)

  /** What a descriptor asked for: its type, its chunk type, `bd_rdma`, and whether it maps through
      the bulk cache. */
  datatype Kind = Kind(iod: IodType, ctype: ChkType, rdma: bool, bulk: bool)

  /** What a descriptor holds.  `hdls` is `bd_bulk_hdls[0..bd_bulk_cnt)`. */
  datatype Rsrvd = Rsrvd(kind: Kind, regions: seq<Region>, chks: seq<ChunkId>,
                         hdls: seq<Option<HdlRef>>)

  /** One `struct bio_iov` handed to the mapping callback, with the index of its sgl and the answers
      the environment gives while it is mapped: can SPDK allocate memory, and does registering a
      chunk for RDMA succeed. */
  datatype Item = Item(sgl: nat, ext: Extent, memOk: bool, regOk: bool)

  datatype MapRes = MapRes(rc: Rc, pool: Pool, d: Rsrvd, buf: Buf)

  const ZERO_CHUNK := Chunk(0, 0, 0, Io, Unlinked, None, false, 0, 0)
  const ZERO_HDL := Hdl(0, 0, 0, 0, 0, false)
  const ZERO_GROUP := Group(0, 0, [], [])

  function HdlIn(m: map<HdlRef, Hdl>, h: HdlRef): Hdl {
    if h in m then m[h] else ZERO_HDL
  }

  function CntOf(m: map<ChkType, nat>, t: ChkType): nat {
    if t in m then m[t] else 0
  }

  function Chk(p: Pool, c: ChunkId): Chunk {
    if c in p.heap then p.heap[c] else ZERO_CHUNK
  }

  function Grp(p: Pool, g: nat): Group {
    if g < |p.grps| then p.grps[g] else ZERO_GROUP
  }

  function Hd(p: Pool, h: HdlRef): Hdl {
    HdlIn(p.hdls, h)
  }

  function SetChk(p: Pool, c: ChunkId, k: Chunk): Pool {
    p.(heap := p.heap[c := k])
  }

  function SetGrp(p: Pool, g: nat, grp: Group): Pool {
    if g < |p.grps| then p.(grps := p.grps[g := grp]) else p
  }

  function SetHd(p: Pool, h: HdlRef, hd: Hdl): Pool {
    p.(hdls := p.hdls[h := hd])
  }

  function Last<T>(s: seq<T>): T
    requires s != []
  {
    s[|s| - 1]
  }

  // ---------------------------------------------------------------------------------------------
  // Chunks
  // ---------------------------------------------------------------------------------------------

  function NewChunk(pages: nat, t: ChkType, loc: Loc): Chunk {
    Chunk(pages, 0, 0, t, loc, None, false, 0, 0)
  }

  /** `dma_buffer_grow(bdb, 1)` */
  function Grow(p: Pool): Pool {
    p.(next := p.next + 1,
       heap := p.heap[p.next := NewChunk(p.cfg.chkSz, Io, OnIdle)],
       idle := p.idle + [p.next],
       tot := p.tot + 1)
  }

  /** `dma_buffer_create`, without its chunks. */
  function NewPool(cfg: Config): Pool {
    Pool(cfg, 0, map[], [], [], map[], map[], 0, map[], [], [], [])
  }

  /** `dma_buffer_grow(bdb, n)` */
  function GrowN(p: Pool, n: nat): Pool {
    if n == 0 then p else Grow(GrowN(p, n - 1))
  }

  /** `chunk_reserve` finds room: the chunk is not huge and not too full. */
  predicate Fits(p: Pool, c: ChunkId, idx: nat, cnt: nat) {
    !Chk(p, c).loc.Unlinked? && idx + cnt <= p.cfg.chkSz
  }

  /** `chunk_reserve` moves the cursor of the chunk behind the reserved pages. */
  function Reserve(p: Pool, c: ChunkId, idx: nat, cnt: nat): Pool {
    SetChk(p, c, Chk(p, c).(pgIdx := idx + cnt))
  }

  function AddRef(p: Pool, c: ChunkId): Pool {
    SetChk(p, c, Chk(p, c).(refs := Chk(p, c).refs + 1))
  }

  /** `bulk_chunk_is_idle` */
  predicate ChunkIdle(p: Pool, c: ChunkId) {
    Chk(p, c).bulkCnt == Chk(p, c).bulkIdle
  }

  /** The handles of other chunks, in order. */
  function DropChk(hs: seq<HdlRef>, c: ChunkId): (r: seq<HdlRef>)
    ensures forall h :: h in r <==> h in hs && h.chk != c
    ensures NoDup(hs) ==> NoDup(r)
  {
    if hs == [] then []
    else
      assert hs == [hs[0]] + hs[1..];
      assert NoDup(hs) ==> NoDup(hs[1..]) && hs[0] !in hs[1..];
      if hs[0].chk == c then DropChk(hs[1..], c)
      else [hs[0]] + DropChk(hs[1..], c)
  }

  /** `bulk_grp_evict_one(bdb, chk, false)`, with `bulk_chunk_depopulate` */
  function EvictOne(p: Pool, c: ChunkId): Pool {
    var g := if Chk(p, c).grp.Some? then Chk(p, c).grp.value else 0;
    var grp := Grp(p, g);
    var q := SetChk(p, c, Chk(p, c).(bulkCnt := 0, bulkIdle := 0, grp := None, loc := OnIdle));
    SetGrp(q.(idle := q.idle + [c]), g,
           grp.(chkCnt := if grp.chkCnt > 0 then grp.chkCnt - 1 else 0,
                chks := Remove<nat>(grp.chks, c), idleHdls := DropChk(grp.idleHdls, c)))
  }

  /** First idle chunk of a list. */
  function FirstIdle(p: Pool, cs: seq<ChunkId>): (r: Option<ChunkId>)
    ensures r.Some? ==> r.value in cs && ChunkIdle(p, r.value)
    ensures r.None? ==> forall c :: c in cs ==> !ChunkIdle(p, c)
  {
    if cs == [] then None
    else if ChunkIdle(p, cs[0]) then Some(cs[0])
    else FirstIdle(p, cs[1..])
  }

  /** The search of `bulk_reclaim_chunk`: the first idle chunk of the first group, in LRU order, that
      has one and is not `ex`. */
  function Victim(p: Pool, order: seq<nat>, ex: Option<nat>): (r: Option<ChunkId>)
    ensures r.Some? ==> exists g :: g in order && Some(g) != ex && r.value in Grp(p, g).chks && ChunkIdle(p, r.value)
    ensures r.None? ==> forall g, c :: g in order && Some(g) != ex && c in Grp(p, g).chks ==> !ChunkIdle(p, c)
  {
    if order == [] then None
    else
      assert order == [order[0]] + order[1..];
      if Some(order[0]) == ex then Victim(p, order[1..], ex)
      else
        var v := FirstIdle(p, Grp(p, order[0]).chks);
        if v.Some? then v else Victim(p, order[1..], ex)
  }

  /** `bulk_reclaim_chunk` */
  function Reclaim(p: Pool, ex: Option<nat>): (r: (Rc, Pool))
    ensures r.0 == Ok || r.0 == Again
    ensures r.0 == Again ==> r.1 == p
  {
    var v := Victim(p, p.lru, ex);
    if v.Some? then (Ok, EvictOne(p, v.value)) else (Again, p)
  }

  /** The part of `chunk_get_idle` and `bulk_grp_grow` that makes the idle list non-empty. */
  function EnsureIdle(p: Pool, ex: Option<nat>, memOk: bool): (r: (Rc, Pool))
    ensures r.0 == Ok || r.0 == Again
    ensures r.0 == Ok ==> r.1.idle != []
    ensures r.0 == Again ==> r.1 == p && p.idle == []
  {
    if p.idle != [] then (Ok, p)
    else if p.tot < p.cfg.chkMax && memOk then (Ok, Grow(p))
    else Reclaim(p, ex)
  }

  /** The list move of `chunk_get_idle` and the chunk set-up of `dma_map_one`. */
  function TakeIdle(p: Pool, t: ChkType): Pool {
    if p.idle == [] then p
    else
      var c := p.idle[0];
      SetChk(p, c, Chk(p, c).(loc := OnUsed, ctype := t)).(
        idle := p.idle[1..], used := p.used + [c],
        cur := p.cur[t := c], usedCnt := p.usedCnt[t := CntOf(p.usedCnt, t) + 1])
  }

  // ---------------------------------------------------------------------------------------------
  // dma_map_one
  // ---------------------------------------------------------------------------------------------

  predicate DirectScm(cfg: Config, k: Kind, e: Extent) {
    && !k.iod.GetBuf?
    && e.media.Scm?
    && (!k.rdma || cfg.scmRdma || e.dedup)
  }

  function NewRegion(c: ChunkId, idx: nat, chkOff: nat, e: Extent): Region {
    Region(c, idx, chkOff, e.off, e.End(), e.media, None, 0)
  }

  function AddRegion(d: Rsrvd, r: Region): Rsrvd {
    d.(regions := d.regions + [r])
  }

  function AddChk(d: Rsrvd, c: ChunkId): Rsrvd {
    d.(chks := d.chks + [c])
  }

  /** A private chunk outside all lists (`dma_alloc_chunk`, `iod_add_chunk`). */
  function AllocHuge(p: Pool, pages: nat, t: ChkType): Pool {
    SetChk(p.(next := p.next + 1), p.next, NewChunk(pages, t, Unlinked).(refs := 1))
  }

  /** An extent larger than a chunk gets a chunk of its own. */
  function MapHuge(p: Pool, d: Rsrvd, e: Extent): MapRes {
    var c := p.next;
    MapRes(Ok,
           AllocHuge(p, e.PgCnt(), d.kind.ctype),
           AddRegion(AddChk(d, c), NewRegion(c, 0, 0, e)),
           Dma(c, e.PgOff()))
  }

  /** The page at which `iod_expand_region` continues region `r` for an extent at `off`. */
  function ExpandIdx(r: Region, off: nat): nat {
    if r.off < off && FloorPg(r.off) <= FloorPg(r.end)
    then r.pgIdx + (FloorPg(r.end) - FloorPg(r.off)) else r.pgIdx
  }

  /** The tests of `iod_expand_region` before it reserves: both NVMe, and the extent starts in the page
      in which the region ends. */
  predicate Mergeable(r: Region, e: Extent) {
    e.media.Nvme? && r.media.Nvme? && FloorPg(e.off) == FloorPg(r.end)
  }

  predicate CanExpand(p: Pool, d: Rsrvd, e: Extent) {
    && d.regions != []
    && var r := Last(d.regions);
       Mergeable(r, e) && Fits(p, r.chk, ExpandIdx(r, e.off), e.PgCnt())
  }

  function Widen(r: Region, e: Extent): Region {
    r.(off := if e.off < r.off then e.off else r.off,
       end := if e.End() > r.end then e.End() else r.end)
  }

  /** `iod_expand_region` */
  function Expand(p: Pool, d: Rsrvd, e: Extent): MapRes
    requires d.regions != []
  {
    var r := Last(d.regions);
    var idx := ExpandIdx(r, e.off);
    MapRes(Ok, Reserve(p, r.chk, idx, e.PgCnt()),
           d.(regions := d.regions[|d.regions| - 1 := Widen(r, e)]),
           Dma(r.chk, idx * 4096 + e.PgOff()))
  }

  /** Where the bytes after SCM region `r` start, relative to its first page. */
  function PadOff(r: Region): nat {
    if r.off <= r.end then r.chkOff + (r.end - r.off) else r.chkOff
  }

  predicate CanPad(d: Rsrvd, e: Extent) {
    && d.regions != []
    && var r := Last(d.regions);
       && e.media.Scm? && r.media.Scm?
       && PadOff(r) % 4096 != 0
       && PadOff(r) % 4096 + e.len <= 4096
  }

  /** `iod_pad_region` */
  function Pad(p: Pool, d: Rsrvd, e: Extent): MapRes
    requires d.regions != []
  {
    var r := Last(d.regions);
    MapRes(Ok, p, AddRegion(d, NewRegion(r.chk, r.pgIdx, PadOff(r), e)),
           Dma(r.chk, r.pgIdx * 4096 + PadOff(r)))
  }

  /** There is room for the extent at the cursor of chunk `c`. */
  predicate CanBump(p: Pool, c: ChunkId, e: Extent) {
    Fits(p, c, Chk(p, c).pgIdx, e.PgCnt())
  }

  /** Reserve at the cursor of chunk `c` for a new region, taking a reference on the chunk when `ref`. */
  function Bump(p: Pool, d: Rsrvd, c: ChunkId, e: Extent, ref: bool): MapRes {
    var idx := Chk(p, c).pgIdx;
    var p1 := Reserve(p, c, idx, e.PgCnt());
    MapRes(Ok, if ref then AddRef(p1, c) else p1,
           AddRegion(if ref then AddChk(d, c) else d, NewRegion(c, idx, 0, e)),
           Dma(c, idx * 4096 + e.PgOff()))
  }

  /** `dma_map_one` from "switch to another idle chunk" on. */
  function MapFresh(p: Pool, d: Rsrvd, e: Extent, memOk: bool): MapRes {
    var (rc, p1) := EnsureIdle(p, None, memOk);
    if rc != Ok then MapRes(rc, p1, d, Null)
    else
      var c := p1.idle[0];
      var p2 := TakeIdle(p1, d.kind.ctype);
      if CanBump(p2, c, e) then Bump(p2, d, c, e, true) else MapRes(Overflow, p2, d, Null)
  }

  predicate LastChunkFits(p: Pool, d: Rsrvd, e: Extent) {
    d.regions != [] && CanBump(p, Last(d.regions).chk, e)
  }

  predicate CurChunkFits(p: Pool, d: Rsrvd, e: Extent) {
    && d.kind.ctype in p.cur
    && (d.regions != [] ==> p.cur[d.kind.ctype] != Last(d.regions).chk)
    && CanBump(p, p.cur[d.kind.ctype], e)
  }

  /** `dma_map_one` */
  function MapOne(p: Pool, d: Rsrvd, e: Extent, memOk: bool): MapRes {
    if e.len == 0 || e.hole then MapRes(Ok, p, d, Null)
    else if DirectScm(p.cfg, d.kind, e) then MapRes(Ok, p, d, Direct(e.off))
    else if e.PgCnt() > p.cfg.chkSz then
      if memOk then MapHuge(p, d, e) else MapRes(NoMem, p, d, Null)
    else if CanExpand(p, d, e) then Expand(p, d, e)
    else if CanPad(d, e) then Pad(p, d, e)
    else if LastChunkFits(p, d, e) then Bump(p, d, Last(d.regions).chk, e, false)
    else if CurChunkFits(p, d, e) then Bump(p, d, p.cur[d.kind.ctype], e, true)
    else MapFresh(p, d, e, memOk)
  }

  // ---------------------------------------------------------------------------------------------
  // Bulk groups
  // ---------------------------------------------------------------------------------------------

  /** `bulk_grp_is_idle` */
  predicate GrpIdle(p: Pool, g: nat) {
    forall c :: c in Grp(p, g).chks ==> ChunkIdle(p, c)
  }

  function FirstIdleGrp(p: Pool, order: seq<nat>): (r: Option<nat>)
    ensures r.Some? ==> r.value in order && GrpIdle(p, r.value)
    ensures r.None? ==> forall g :: g in order ==> !GrpIdle(p, g)
  {
    if order == [] then None
    else if GrpIdle(p, order[0]) then Some(order[0])
    else FirstIdleGrp(p, order[1..])
  }

  /** `bulk_grp_evict(bdb, bbg, false)` on the chunks `cs` of a group. */
  function EvictAll(p: Pool, cs: seq<ChunkId>): Pool
    decreases |cs|
  {
    if cs == [] then p else EvictAll(EvictOne(p, cs[0]), cs[1..])
  }

  function PgsOf(grps: seq<Group>, g: nat): nat {
    if g < |grps| then grps[g].pgs else 0
  }

  /** Insertion of a slot into a list ordered by group size.  `daos_array_sort` orders the slots by
      size; with distinct sizes there is only one such order. */
  function Insert(sorted: seq<nat>, g: nat, grps: seq<Group>): seq<nat> {
    if sorted == [] then [g]
    else if PgsOf(grps, g) <= PgsOf(grps, sorted[0]) then [g] + sorted
    else [sorted[0]] + Insert(sorted[1..], g, grps)
  }

  /** `bulk_grp_add`: a free slot, or the least recently used idle group emptied and resized. */
  function GrpAdd(p: Pool, pgs: nat): (Pool, Option<nat>) {
    if |p.grps| < p.cfg.grpMax then
      var g := |p.grps|;
      var grps := p.grps + [Group(pgs, 0, [], [])];
      (p.(grps := grps, sorted := Insert(p.sorted, g, grps)), Some(g))
    else
      var v := FirstIdleGrp(p, p.lru);
      if v.None? then (p, None)
      else
        var g := v.value;
        var q := EvictAll(p, Grp(p, g).chks);
        var q1 := SetGrp(q, g, Grp(q, g).(pgs := pgs));
        (q1.(lru := Remove<nat>(q1.lru, g), sorted := Insert(Remove<nat>(q1.sorted, g), g, q1.grps)), Some(g))
  }

  /** Least index of `sorted` whose group is not smaller than `pgs`, or |sorted| (`daos_array_find_ge`). */
  function FindGe(sorted: seq<nat>, grps: seq<Group>, pgs: nat): (k: nat)
    ensures k <= |sorted|
    ensures k < |sorted| ==> PgsOf(grps, sorted[k]) >= pgs
    ensures forall i :: 0 <= i < k ==> PgsOf(grps, sorted[i]) < pgs
  {
    if sorted == [] then 0
    else if PgsOf(grps, sorted[0]) >= pgs then 0
    else
      assert forall i :: 1 <= i < |sorted| ==> sorted[i] == sorted[1..][i - 1];
      1 + FindGe(sorted[1..], grps, pgs)
  }

  /** Moves a group to the recently used end of the LRU list. */
  function Touch(p: Pool, g: nat): Pool {
    p.(lru := Remove<nat>(p.lru, g) + [g])
  }

  /** `bulk_grp_get` */
  function GrpGet(p: Pool, pgs: nat): (Pool, Option<nat>) {
    if p.lru != [] && Grp(p, Last(p.lru)).pgs == pgs then (p, Some(Last(p.lru)))
    else
      var k := FindGe(p.sorted, p.grps, pgs);
      if p.lru != [] && k < |p.sorted| && Grp(p, p.sorted[k]).pgs == pgs then
        (Touch(p, p.sorted[k]), Some(p.sorted[k]))
      else
        var (q, og) := GrpAdd(p, pgs);
        if og.None? then (q, None) else (Touch(q, og.value), og)
  }

  // ---------------------------------------------------------------------------------------------
  // Bulk handles
  // ---------------------------------------------------------------------------------------------

  /** The first `n` handles of chunk `c` get windows of `pgs` pages, one after the other. */
  function SetWindows(m: map<HdlRef, Hdl>, c: ChunkId, pgs: nat, n: nat): (r: map<HdlRef, Hdl>)
    ensures forall h :: HdlIn(r, h) == if h.chk == c && h.idx < n
                                       then HdlIn(m, h).(pgIdx := pgs * h.idx) else HdlIn(m, h)
  {
    if n == 0 then m
    else
      var h := HdlRef(c, n - 1);
      SetWindows(m, c, pgs, n - 1)[h := HdlIn(m, h).(pgIdx := pgs * (n - 1))]
  }

  function HdlRefs(c: ChunkId, n: nat): (r: seq<HdlRef>)
    ensures |r| == n && NoDup(r)
    ensures forall h :: h in r <==> h.chk == c && h.idx < n
  {
    if n == 0 then [] else HdlRefs(c, n - 1) + [HdlRef(c, n - 1)]
  }

  /** Handles per chunk in a group of `pgs` pages. */
  function PerChunk(chkSz: nat, pgs: nat): nat {
    if pgs == 0 then 0 else chkSz / pgs
  }

  /** `bulk_chunk_populate`; registration is needed only the first time. */
  function Populate(p: Pool, c: ChunkId, g: nat, regOk: bool): (r: (Rc, Pool))
    ensures r.0 == Ok || r.0 == RegErr
    ensures r.0 == RegErr ==> r.1 == p
  {
    if !Chk(p, c).bulks && !regOk then (RegErr, p)
    else
      var grp := Grp(p, g);
      var n := PerChunk(p.cfg.chkSz, grp.pgs);
      var q := SetChk(p, c, Chk(p, c).(bulks := true, grp := Some(g), ctype := Io, bulkCnt := n, bulkIdle := n));
      (Ok, SetGrp(q.(hdls := SetWindows(q.hdls, c, grp.pgs, n)), g,
                  grp.(idleHdls := grp.idleHdls + HdlRefs(c, n))))
  }

  /** Moves the first idle chunk to the end of the chunk list of group `g`. */
  function MoveToGrp(p: Pool, g: nat): Pool {
    if p.idle == [] then p
    else
      var c := p.idle[0];
      var grp := Grp(p, g);
      SetGrp(SetChk(p, c, Chk(p, c).(loc := InGrp(g))).(idle := p.idle[1..]), g,
             grp.(chks := grp.chks + [c], chkCnt := grp.chkCnt + 1))
  }

  /** `bulk_grp_grow` */
  function GrpGrow(p: Pool, g: nat, memOk: bool, regOk: bool): (Rc, Pool) {
    var (rc, p1) := EnsureIdle(p, Some(g), memOk);
    if rc != Ok then (rc, p1)
    else
      var (rc2, p2) := Populate(p1, p1.idle[0], g, regOk);
      if rc2 != Ok then (rc2, p2) else (Ok, MoveToGrp(p2, g))
  }

  /** `is_exclusive_biov` */
  predicate Exclusive(e: Extent) {
    !e.media.Scm? || e.prefix + e.suffix != 0
  }

  /** `bulk_hdl_hold` */
  function Hold(p: Pool, h: HdlRef, sgl: nat, e: Extent): Pool {
    var ck := Chk(p, h.chk);
    var g := if ck.grp.Some? then ck.grp.value else 0;
    var q := SetChk(p, h.chk, ck.(bulkIdle := if ck.bulkIdle > 0 then ck.bulkIdle - 1 else 0));
    SetGrp(SetHd(q, h, Hd(p, h).(inuse := 1, bulkOff := e.PgOff() + e.prefix, remote := sgl,
                                 shareable := !Exclusive(e))),
           g, Grp(p, g).(idleHdls := Remove(Grp(p, g).idleHdls, h)))
  }

  /** `bulk_hdl_unhold` */
  function Unhold(p: Pool, h: HdlRef): Pool {
    var hd := Hd(p, h);
    if hd.inuse > 1 then SetHd(p, h, hd.(inuse := hd.inuse - 1))
    else
      var ck := Chk(p, h.chk);
      var g := if ck.grp.Some? then ck.grp.value else 0;
      var q := SetChk(p, h.chk, ck.(bulkIdle := ck.bulkIdle + 1));
      SetGrp(SetHd(q, h, hd.(inuse := 0, bulkOff := 0, used := 0, remote := 0, shareable := false)),
             g, Grp(p, g).(idleHdls := Grp(p, g).idleHdls + [h]))
  }

  /** Bytes of a handle's window (`bulk_hdl2len`). */
  function HdlLen(p: Pool, h: HdlRef): nat {
    var ck := Chk(p, h.chk);
    if ck.grp.Some? then Grp(p, ck.grp.value).pgs * 4096 else 0
  }

  /** `bulk_get_shared_hdl` can reuse the descriptor's latest handle. */
  predicate CanShare(p: Pool, d: Rsrvd, sgl: nat, e: Extent) {
    && !Exclusive(e)
    && d.hdls != []
    && Last(d.hdls).Some?
    && var h := Last(d.hdls).value;
       && Hd(p, h).shareable
       && Hd(p, h).remote == sgl
       && Hd(p, h).used + e.len <= HdlLen(p, h)
  }

  function Share(p: Pool, h: HdlRef): Pool {
    SetHd(p, h, Hd(p, h).(inuse := Hd(p, h).inuse + 1))
  }

  /** `roundup_pgs`: the largest bulk size that still yields as many handles per chunk. */
  function RoundUpPgs(chkSz: nat, pgs: nat): nat {
    PerChunk(chkSz, PerChunk(chkSz, pgs))
  }

  /** The part of `bulk_get_hdl` that finds a group of handles of `pgs` pages with an idle handle.  `Overflow` stands
      for the failing assertion on an empty idle list. */
  function FindIdle(p: Pool, pgs: nat, memOk: bool, regOk: bool): (Rc, Pool, nat) {
    var (p1, og) := GrpGet(p, pgs);
    if og.None? then (Again, p1, 0)
    else
      var g := og.value;
      var (rc, p2) := if Grp(p1, g).idleHdls != [] then (Ok, p1) else GrpGrow(p1, g, memOk, regOk);
      (if rc == Ok && Grp(p2, g).idleHdls == [] then Overflow else rc, p2, g)
  }

  /** `bulk_get_hdl` */
  function GetHdl(p: Pool, d: Rsrvd, it: Item): (Rc, Pool, HdlRef) {
    if CanShare(p, d, it.sgl, it.ext) then
      var h := Last(d.hdls).value;
      (Ok, Share(p, h), h)
    else
      var (rc, q, g) := FindIdle(p, RoundUpPgs(p.cfg.chkSz, it.ext.PgCnt()), it.memOk, it.regOk);
      if rc != Ok || Grp(q, g).idleHdls == [] then (rc, q, HdlRef(0, 0))
      else
        var h := Grp(q, g).idleHdls[0];
        (Ok, Hold(q, h, it.sgl, it.ext), h)
  }

  /** The end of `bulk_map_one`: the region and the buffer the extent gets in handle `h`. */
  function UseHdl(p: Pool, d: Rsrvd, h: HdlRef, e: Extent): MapRes {
    var hd := Hd(p, h);
    MapRes(Ok,
           if hd.shareable then SetHd(p, h, hd.(used := hd.used + e.len)) else p,
           AddRegion(d, Region(h.chk, hd.pgIdx, hd.used, e.off, e.End(), e.media, Some(h), e.PgOff() + e.prefix)).(
             hdls := d.hdls + [Some(h)]),
           Dma(h.chk, hd.pgIdx * 4096 + (if hd.shareable then hd.used else e.PgOff())))
  }

  /** `bypass_bulk_cache` */
  predicate Bypass(cfg: Config, k: Kind, e: Extent) {
    || e.hole
    || e.PgCnt() > cfg.chkSz
    || (!k.iod.GetBuf? && e.media.Scm? && (cfg.scmRdma || e.dedup))
  }

  function PushNone(r: MapRes): MapRes {
    r.(d := r.d.(hdls := r.d.hdls + [None]))
  }

  /** `bulk_map_one` */
  function BulkMapOne(p: Pool, d: Rsrvd, it: Item): MapRes {
    if it.ext.len <= it.ext.prefix + it.ext.suffix then PushNone(MapRes(Ok, p, d, Null))
    else if Bypass(p.cfg, d.kind, it.ext) then PushNone(MapOne(p, d, it.ext, it.memOk))
    else
      var (rc, p1, h) := GetHdl(p, d, it);
      if rc != Ok then MapRes(rc, p1, d, Null) else UseHdl(p1, d, h, it.ext)
  }

  // ---------------------------------------------------------------------------------------------
  // Mapping all extents, and releasing
  // ---------------------------------------------------------------------------------------------

  /** One step of `iterate_biov` inside `iod_map_iovs`. */
  function MapItem(p: Pool, d: Rsrvd, it: Item): MapRes {
    if d.kind.bulk then BulkMapOne(p, d, it) else MapOne(p, d, it.ext, it.memOk)
  }

  /** The extent, its buffer, and the region (by index) that holds the buffer. */
  datatype Place = Place(ext: Extent, buf: Buf, rg: int)

  datatype MapAllRes = MapAllRes(rc: Rc, pool: Pool, d: Rsrvd, places: seq<Place>)

  /** One more extent; after an error nothing happens. */
  function MapNext(pre: MapAllRes, it: Item): MapAllRes {
    if pre.rc != Ok then pre
    else
      var r := MapItem(pre.pool, pre.d, it);
      MapAllRes(r.rc, r.pool, r.d,
                if r.rc == Ok then pre.places + [Place(it.ext, r.buf, |r.d.regions| - 1)] else pre.places)
  }

  /** `iterate_biov` over all extents, stopping at the first error. */
  function MapAll(p: Pool, d: Rsrvd, items: seq<Item>): MapAllRes
    decreases |items|
  {
    if items == [] then MapAllRes(Ok, p, d, [])
    else MapNext(MapAll(p, d, items[..|items| - 1]), items[|items| - 1])
  }

  /** The loop of `bulk_iod_release`. */
  function UnholdAll(p: Pool, hs: seq<Option<HdlRef>>): Pool
    decreases |hs|
  {
    if hs == [] then p
    else UnholdAll(if hs[0].Some? then Unhold(p, hs[0].value) else p, hs[1..])
  }

  /** One round of the loop of `iod_release_buffer`: the chunk loses a reference; a huge chunk is freed,
      another one goes back to the idle list with its last reference. */
  function DropRef(p: Pool, c: ChunkId): Pool {
    var ck := Chk(p, c);
    var refs := if ck.refs > 0 then ck.refs - 1 else 0;
    if ck.loc.Unlinked? then p.(heap := p.heap - {c})
    else if refs > 0 then SetChk(p, c, ck.(refs := refs))
    else
      var n := CntOf(p.usedCnt, ck.ctype);
      SetChk(p, c, ck.(refs := 0, pgIdx := 0, loc := OnIdle)).(
        usedCnt := p.usedCnt[ck.ctype := if n > 0 then n - 1 else 0],
        cur := if ck.ctype in p.cur && p.cur[ck.ctype] == c then p.cur - {ck.ctype} else p.cur,
        used := Remove<nat>(p.used, c), idle := p.idle + [c])
  }

  function DropRefs(p: Pool, cs: seq<ChunkId>): Pool
    decreases |cs|
  {
    if cs == [] then p else DropRefs(DropRef(p, cs[0]), cs[1..])
  }

  function Empty(k: Kind): Rsrvd {
    Rsrvd(k, [], [], [])
  }

  /** `iod_release_buffer` */
  function Release(p: Pool, d: Rsrvd): Pool {
    DropRefs(UnholdAll(p, d.hdls), d.chks)
  }
}
