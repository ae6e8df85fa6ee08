/** Mapping all extents of a descriptor and releasing them again: whatever the extents are, and whether the mapping
    goes through the bulk cache or not, the invariant of the DMA buffer is kept and every mapped extent lies in one of
    the descriptor's regions. */
module Mapping {
  import opened BioTypes
  import opened SeqLib
  import opened Pool
  import opened PoolInv
  import opened ReserveProofs
  import opened ReleaseProofs
  import opened MapProofs
  import opened Rounding
  import opened BulkProofs
  import opened HandleProofs
  import opened GroupProofs

  // ---------------------------------------------------------------------------------------------
  // dma_map_one
  // ---------------------------------------------------------------------------------------------

  /** The chunks `dma_map_one` tries before it takes an idle one are used chunks of the right type. */
  lemma KnownChunks(p: Pool, rs: seq<Rsrvd>, i: nat, e: Extent)
    requires Inv(p, rs) && i < |rs| && !rs[i].kind.bulk
    ensures LastChunkFits(p, rs[i], e) ==>
              Chk(p, Last(rs[i].regions).chk).loc == OnUsed && Last(rs[i].regions).chk in rs[i].chks
    ensures CurChunkFits(p, rs[i], e) ==>
              Chk(p, p.cur[rs[i].kind.ctype]).loc == OnUsed && Chk(p, p.cur[rs[i].kind.ctype]).ctype == rs[i].kind.ctype
  {
    if rs[i].regions != [] {
      RegionAt(p, rs, i, |rs[i].regions| - 1);
    }
    Open(p, rs);
  }

  /** What `dma_map_one` promises about descriptor i. */
  ghost predicate Mapped(p: Pool, rs: seq<Rsrvd>, i: nat, e: Extent, r: MapRes)
    requires i < |rs|
  {
    && Inv(r.pool, rs[i := r.d]) && Tip(r.pool, r.d) && Placed(rs[i], r, e)
    && r.d.hdls == rs[i].hdls && r.pool.cfg == p.cfg
    && (r.rc == Ok || r.rc == Again || r.rc == NoMem)
    && (r.rc == Ok ==> r.buf.Null? == (e.len == 0 || e.hole))
    && (r.buf.Direct? ==> r.buf.scm == e.off && e.media.Scm?)
    && (r.rc != Ok || !r.buf.Dma? ==> r.d == rs[i])
  }

  /** `dma_map_one` outside the bulk cache. */
  lemma MapOneInv(p: Pool, rs: seq<Rsrvd>, i: nat, e: Extent, memOk: bool)
    requires Inv(p, rs) && i < |rs| && !rs[i].kind.bulk && Tip(p, rs[i])
    ensures Mapped(p, rs, i, e, MapOne(p, rs[i], e, memOk))
  {
    var d := rs[i];
    assert rs[i := d] == rs;
    if e.len == 0 || e.hole || DirectScm(p.cfg, d.kind, e) {
    } else if e.PgCnt() > p.cfg.chkSz {
      if memOk {
        HugeInv(p, rs, i, e);
      }
    } else if CanExpand(p, d, e) {
      ExpandInv(p, rs, i, e);
    } else if CanPad(d, e) {
      PadInv(p, rs, i, e);
    } else {
      KnownChunks(p, rs, i, e);
      if LastChunkFits(p, d, e) {
        BumpInv(p, rs, i, Last(d.regions).chk, e);
        BumpShape(p, d, Last(d.regions).chk, e);
      } else if CurChunkFits(p, d, e) {
        BumpRefInv(p, rs, i, p.cur[d.kind.ctype], e);
      } else {
        MapFreshInv(p, rs, i, e, memOk);
      }
    }
  }

  lemma MapFreshInv(p: Pool, rs: seq<Rsrvd>, i: nat, e: Extent, memOk: bool)
    requires Inv(p, rs) && i < |rs| && !rs[i].kind.bulk && Tip(p, rs[i])
    requires e.len > 0 && !e.hole && e.PgCnt() <= p.cfg.chkSz
    ensures Mapped(p, rs, i, e, MapFresh(p, rs[i], e, memOk))
  {
    assert rs[i := rs[i]] == rs;
    var (rc, p1) := EnsureIdle(p, None, memOk);
    EnsureIdleInv(p, rs, None, memOk);
    if rc == Ok {
      FreshInv(p1, rs, i, e);
    }
  }

  // ---------------------------------------------------------------------------------------------
  // bulk_map_one
  // ---------------------------------------------------------------------------------------------

  /** What `bulk_map_one` may be given: an extent whose request is empty has no raw bytes either. */
  predicate ItemOk(it: Item) {
    it.ext.Valid() && (it.ext.ReqLen() == 0 ==> it.ext.len == 0)
  }

  /** While a descriptor is mapped through the cache, its latest handle holds its last region, and a shared handle
      is used up to the end of that region. */
  predicate BulkTip(p: Pool, d: Rsrvd) {
    d.hdls != [] && Last(d.hdls).Some? ==>
      && d.regions != []
      && var h := Last(d.hdls).value;
         && Last(d.regions).hdl == Some(h)
         && (Hd(p, h).shareable ==> Last(d.regions).Hi() == Hd(p, h).pgIdx * 4096 + Hd(p, h).used)
  }

  /** In bulk mode `dma_map_one` is reached only for holes, direct SCM access and huge extents. */
  lemma BypassCases(cfg: Config, k: Kind, e: Extent)
    requires k.bulk && k.rdma && Bypass(cfg, k, e)
    ensures e.hole || DirectScm(cfg, k, e) || e.PgCnt() > cfg.chkSz
  {
  }

  lemma BypassInv(p: Pool, rs: seq<Rsrvd>, i: nat, e: Extent, memOk: bool)
    requires Inv(p, rs) && i < |rs| && rs[i].kind.bulk && Bypass(p.cfg, rs[i].kind, e)
    ensures Mapped(p, rs, i, e, MapOne(p, rs[i], e, memOk))
  {
    var d := rs[i];
    assert rs[i := d] == rs;
    assert d.kind.rdma && Tip(p, d) by {
      Open(p, rs);
      assert KindOk(d);
      if d.regions != [] {
        RegionAt(p, rs, i, |d.regions| - 1);
      }
    }
    BypassCases(p.cfg, d.kind, e);
    if !(e.len == 0 || e.hole || DirectScm(p.cfg, d.kind, e)) && memOk {
      HugeInv(p, rs, i, e);
    }
  }

  /** An entry that holds nothing joins the handle array. */
  lemma PushNoneCore(p: Pool, rs: seq<Rsrvd>, i: nat)
    requires Core(p, rs) && i < |rs| && rs[i].kind.bulk
    ensures Core(p, rs[i := rs[i].(hdls := rs[i].hdls + [None])])
  {
    Open(p, rs);
    var d := rs[i].(hdls := rs[i].hdls + [None]);
    var rt := rs[i := d];
    OccKept(p, rs, i, d);
    forall k ensures Hd(p, k).inuse == HOcc(rt, k) {
      HOccUpdate(rs, i, d, k);
    }
    assert KindOk(d) by { assert KindOk(rs[i]); }
    forall a, k | 0 <= a < |rt| && 0 <= k < |rt[a].regions| ensures RegionOk(p, rt[a], rt[a].regions[k]) {
      assert RegionOk(p, rs[a], rs[a].regions[k]);
    }
    Close(p, rt);
  }

  /** A region in handle h spans pages of the handle's window only. */
  lemma InWindow(r: Region, pgs: nat)
    requires r.Wf() && r.Hi() <= r.pgIdx * 4096 + pgs * 4096
    ensures r.pgIdx <= r.LoPg() && r.HiPg() <= r.pgIdx + pgs
  {
  }

  /** Every region on a chunk of a group is in a held handle of that chunk. */
  lemma HandleAt(p: Pool, rs: seq<Rsrvd>, j: nat, l: nat)
    requires Core(p, rs) && j < |rs| && l < |rs[j].regions| && Chk(p, rs[j].regions[l].chk).loc.InGrp?
    ensures var q := rs[j].regions[l];
            && q.hdl.Some? && q.hdl.value.chk == q.chk && Some(q.hdl.value) in rs[j].hdls && q.Wf()
            && q.pgIdx == Grp(p, Chk(p, q.chk).loc.g).pgs * q.hdl.value.idx
            && q.Hi() <= q.pgIdx * 4096 + Grp(p, Chk(p, q.chk).loc.g).pgs * 4096
            && (Hd(p, q.hdl.value).shareable ==> q.Hi() <= q.pgIdx * 4096 + Hd(p, q.hdl.value).used)
  {
    RegionAt(p, rs, j, l);
    Open(p, rs);
    var q := rs[j].regions[l];
    HeldLive(p, rs, j, q.hdl.value);
    assert HdlOk(p, q.hdl.value) && ChunkOk(p, p.heap[q.chk]);
  }

  /** A region in a handle of descriptor i is clear of all regions in other handles; those of the same handle
      must end before it starts. */
  lemma HandleFree(p: Pool, rs: seq<Rsrvd>, i: nat, h: HdlRef, r: Region)
    requires Core(p, rs) && i < |rs| && Some(h) in rs[i].hdls
    requires Chk(p, h.chk).loc.InGrp? && Grp(p, Chk(p, h.chk).loc.g).pgs > 0
    requires RegionOk(p, rs[i], r) && r.hdl == Some(h)
    requires forall k :: 0 <= k < |rs[i].regions| && rs[i].regions[k].hdl == Some(h) ==> rs[i].regions[k].Hi() <= r.Lo()
    ensures Free(rs, i, |rs[i].regions|, r)
  {
    var pgs := Grp(p, Chk(p, h.chk).loc.g).pgs;
    assert r.pgIdx == pgs * h.idx && HdlLen(p, h) == pgs * 4096 by {
      Open(p, rs);
      HeldLive(p, rs, i, h);
      assert HdlOk(p, h) && ChunkOk(p, p.heap[h.chk]);
    }
    InWindow(r, pgs);
    forall j, l | 0 <= j < |rs| && 0 <= l < |rs[j].regions| && rs[j].regions[l].chk == h.chk
      && rs[j].regions[l].hdl != Some(h)
      ensures Apart(r, rs[j].regions[l]) && Before(rs[j].regions[l], r)
    {
      var q := rs[j].regions[l];
      HandleAt(p, rs, j, l);
      InWindow(q, pgs);
      WindowsApart(p.cfg.chkSz, pgs, h.idx, q.hdl.value.idx);
      WindowsApart(p.cfg.chkSz, pgs, q.hdl.value.idx, h.idx);
      WindowOrder(r, q);
    }
    forall j, l | 0 <= j < |rs| && j != i && 0 <= l < |rs[j].regions| && rs[j].regions[l].chk == h.chk
      ensures rs[j].regions[l].hdl != Some(h)
    {
      HandleAt(p, rs, j, l);
      Open(p, rs);
    }
  }

  /** Regions whose pages are apart have disjoint bytes. */
  lemma WindowOrder(r: Region, q: Region)
    requires r.Wf() && q.Wf() && r.chk == q.chk && q.hdl.Some?
    requires r.HiPg() <= q.LoPg() || q.HiPg() <= r.LoPg()
    ensures Apart(r, q) && Before(q, r)
  {
    RegionSpan(r);
    RegionSpan(q);
  }

  /** What `bulk_map_one` promises about descriptor i. */
  ghost predicate BulkMapped(p: Pool, rs: seq<Rsrvd>, i: nat, it: Item, r: MapRes)
    requires i < |rs|
  {
    && Inv(r.pool, rs[i := r.d]) && BulkTip(r.pool, r.d) && Placed(rs[i], r, it.ext) && r.pool.cfg == p.cfg
    && r.rc != Overflow
    && (r.rc == Ok ==> && |r.d.hdls| == |rs[i].hdls| + 1 && r.d.hdls[..|rs[i].hdls|] == rs[i].hdls
                       && (Last(r.d.hdls).None? <==> it.ext.len == 0 || Bypass(p.cfg, rs[i].kind, it.ext)))
    && (r.rc == Ok ==> r.buf.Null? == (it.ext.len == 0 || it.ext.hole))
    && (r.buf.Direct? ==> r.buf.scm == it.ext.off && it.ext.media.Scm?)
    && (r.rc == Ok && !r.buf.Dma? ==> r.d.regions == rs[i].regions)
  }

  /** Extents that fit a handle of `pgs` pages make a region inside its window. */
  lemma HandleRegion(h: HdlRef, idx: nat, used: nat, pgs: nat, e: Extent)
    requires e.len > 0 && e.PgCnt() <= pgs && (e.media.Nvme? ==> used == 0)
    requires e.media.Scm? ==> used + e.len <= pgs * 4096
    ensures var r := Region(h.chk, idx, used, e.off, e.End(), e.media, Some(h), e.PgOff() + e.prefix);
            && r.Wf() && r.Lo() == idx * 4096 + used && r.Hi() <= idx * 4096 + pgs * 4096
            && (e.media.Scm? ==> r.Hi() == idx * 4096 + used + e.len)
            && Covers(r, e, Dma(h.chk, idx * 4096 + (if e.media.Scm? then used else e.PgOff())))
  {
  }

  /** An SCM extent fits the bytes of its pages. */
  lemma ScmFits(e: Extent, pgs: nat)
    requires e.media.Scm? && e.PgCnt() <= pgs
    ensures e.len <= pgs * 4096
  {
  }

  /** The request of an extent starts inside the window. */
  lemma RequestInside(it: Item, pgs: nat)
    requires ItemOk(it) && it.ext.len > 0 && it.ext.PgCnt() <= pgs
    ensures it.ext.PgOff() + it.ext.prefix < pgs * 4096
  {
    ExtentFitsPages(it.ext);
  }

  /** What is known about a handle on an idle list. */
  ghost predicate IdleHdl(p: Pool, g: nat, h: HdlRef) {
    && g < |p.grps| && h.chk in p.heap && p.heap[h.chk].loc == InGrp(g) && p.heap[h.chk].grp == Some(g)
    && IdleIn(p, g, h) && HdlOk(p, h) && p.heap[h.chk].bulkIdle > 0
  }

  lemma OnIdleList(p: Pool, rs: seq<Rsrvd>, g: nat, h: HdlRef)
    requires Core(p, rs) && g < |p.grps| && h in p.grps[g].idleHdls
    ensures IdleHdl(p, g, h)
  {
    Open(p, rs);
    assert IdleIn(p, g, h) && HdlOk(p, h) && ChunkOk(p, p.heap[h.chk]);
    assert h == HdlRef(h.chk, h.idx) && h.idx in IdleIdx(p, h.chk);
  }

  /** The handle after `bulk_hdl_hold` and the update of the shared bytes. */
  lemma TakenHdl(p: Pool, g: nat, h: HdlRef, d: Rsrvd, it: Item)
    requires IdleHdl(p, g, h) && ItemOk(it) && it.ext.len > 0 && it.ext.PgCnt() <= p.grps[g].pgs
    ensures var q := UseHdl(Hold(p, h, it.sgl, it.ext), d, h, it.ext).pool;
            && Hd(q, h).inuse == 1 && HdlOk(q, h) && Hd(q, h).pgIdx == Hd(p, h).pgIdx
            && Hd(q, h).bulkOff == it.ext.PgOff() + it.ext.prefix
            && (Hd(q, h).shareable ==> it.ext.media.Scm? && Hd(q, h).used == it.ext.len)
  {
    RequestInside(it, p.grps[g].pgs);
    if it.ext.media.Scm? {
      ScmFits(it.ext, p.grps[g].pgs);
    }
  }

  /** Taking an idle handle of group g for extent e. */
  lemma TakenShape(p: Pool, g: nat, h: HdlRef, d: Rsrvd, it: Item)
    requires IdleHdl(p, g, h) && ItemOk(it) && it.ext.len > 0 && it.ext.PgCnt() <= p.grps[g].pgs
    ensures Taken(p, UseHdl(Hold(p, h, it.sgl, it.ext), d, h, it.ext).pool, h, g)
  {
    TakenHdl(p, g, h, d, it);
  }

  /** Region reg lies inside the window of handle h, whose group has handles of `pgs` pages. */
  predicate InHandle(q: Pool, h: HdlRef, pgs: nat, reg: Region) {
    && reg.Wf() && reg.hdl == Some(h) && reg.chk == h.chk && reg.pgIdx == Hd(q, h).pgIdx
    && reg.reqOff == Hd(q, h).bulkOff
    && reg.Hi() <= reg.pgIdx * 4096 + pgs * 4096
    && (Hd(q, h).shareable ==> reg.media.Scm? && reg.Hi() <= reg.pgIdx * 4096 + Hd(q, h).used)
  }

  /** The region and the buffer in a new handle. */
  lemma UseNewShape(p: Pool, g: nat, h: HdlRef, d: Rsrvd, it: Item) returns (reg: Region)
    requires IdleHdl(p, g, h) && ItemOk(it) && it.ext.len > 0 && it.ext.PgCnt() <= p.grps[g].pgs
    ensures var r := UseHdl(Hold(p, h, it.sgl, it.ext), d, h, it.ext);
            && r.d == AddRegion(Push(d, h), reg) && InHandle(r.pool, h, p.grps[g].pgs, reg)
            && BulkTip(r.pool, r.d) && Placed(d, r, it.ext)
  {
    var e := it.ext;
    TakenHdl(p, g, h, d, it);
    if e.media.Scm? {
      ScmFits(e, p.grps[g].pgs);
    }
    HandleRegion(h, Hd(p, h).pgIdx, 0, p.grps[g].pgs, e);
    reg := Region(h.chk, Hd(p, h).pgIdx, 0, e.off, e.End(), e.media, Some(h), e.PgOff() + e.prefix);
  }

  /** A region inside the window of a handle that was just taken. */
  lemma UseNewCore(p: Pool, q: Pool, rs: seq<Rsrvd>, i: nat, g: nat, h: HdlRef, reg: Region)
    requires Inv(p, rs) && i < |rs| && rs[i].kind.bulk && Taken(p, q, h, g) && p.grps[g].pgs > 0
    requires InHandle(q, h, p.grps[g].pgs, reg)
    ensures Inv(q, rs[i := AddRegion(Push(rs[i], h), reg)])
  {
    var d := AddRegion(Push(rs[i], h), reg);
    var rs1 := rs[i := Push(rs[i], h)];
    TakeHdlCore(p, q, rs, i, h, g);
    NewHandleFree(p, q, rs, i, h, g, reg);
    AddRegionCore(q, rs1, i, reg);
    assert rs1[i := d] == rs[i := d];
    TakenIndex(p, q, h, g);
  }

  /** `bulk_hdl_hold` and the rest of `bulk_map_one` for a new handle. */
  lemma UseNewInv(p: Pool, rs: seq<Rsrvd>, i: nat, g: nat, h: HdlRef, it: Item)
    requires Inv(p, rs) && i < |rs| && rs[i].kind.bulk && g < |p.grps| && h in p.grps[g].idleHdls
    requires ItemOk(it) && it.ext.len > 0 && it.ext.PgCnt() <= p.grps[g].pgs
    ensures var r := UseHdl(Hold(p, h, it.sgl, it.ext), rs[i], h, it.ext);
            Inv(r.pool, rs[i := r.d]) && BulkTip(r.pool, r.d) && Placed(rs[i], r, it.ext)
  {
    OnIdleList(p, rs, g, h);
    TakenShape(p, g, h, rs[i], it);
    var reg := UseNewShape(p, g, h, rs[i], it);
    UseNewCore(p, UseHdl(Hold(p, h, it.sgl, it.ext), rs[i], h, it.ext).pool, rs, i, g, h, reg);
  }

  lemma TakenIndex(p: Pool, q: Pool, h: HdlRef, g: nat)
    requires Index(p) && Rehandled(p, q, h, g)
    ensures Index(q)
  {
    assert SameSizes(p, q);
    IndexKept(p, q);
  }

  /** The region in a handle that was idle before. */
  lemma NewHandleFree(p: Pool, q: Pool, rs: seq<Rsrvd>, i: nat, h: HdlRef, g: nat, reg: Region)
    requires Core(p, rs) && i < |rs| && Taken(p, q, h, g) && p.grps[g].pgs > 0
    requires Core(q, rs[i := Push(rs[i], h)])
    requires InHandle(q, h, p.grps[g].pgs, reg)
    ensures RegionOk(q, Push(rs[i], h), reg)
    ensures Free(rs[i := Push(rs[i], h)], i, |rs[i].regions|, reg)
  {
    var d := Push(rs[i], h);
    var rs1 := rs[i := d];
    assert HdlLen(q, h) == p.grps[g].pgs * 4096 by {
      Open(p, rs);
      assert ChunkOk(p, p.heap[h.chk]);
    }
    forall k | 0 <= k < |d.regions| ensures d.regions[k].hdl != Some(h) {
      RegionAt(p, rs, i, k);
      if d.regions[k].hdl == Some(h) {
        Open(p, rs);
        HeldLive(p, rs, i, h);
      }
    }
    assert Last(d.hdls) == Some(h) && Some(h) in d.hdls;
    HandleFree(q, rs1, i, h, reg);
  }

  /** What is known about the handle that `bulk_get_shared_hdl` returns. */
  lemma ShareFacts(p: Pool, rs: seq<Rsrvd>, i: nat, it: Item)
    requires Core(p, rs) && i < |rs| && CanShare(p, rs[i], it.sgl, it.ext)
    ensures var h := Last(rs[i].hdls).value;
            && Some(h) in rs[i].hdls && h.chk in p.heap && p.heap[h.chk].loc.InGrp? && p.heap[h.chk].loc.g < |p.grps|
            && Hd(p, h).inuse > 0 && HdlOk(p, h) && HdlLen(p, h) == p.grps[p.heap[h.chk].loc.g].pgs * 4096
  {
    Open(p, rs);
    var h := Last(rs[i].hdls).value;
    assert Last(rs[i].hdls) in rs[i].hdls;
    HeldLive(p, rs, i, h);
    assert HdlOk(p, h) && ChunkOk(p, p.heap[h.chk]);
  }

  /** Sharing a handle: the new region starts exactly where the previous one in the handle ended. */
  lemma UseSharedInv(p: Pool, rs: seq<Rsrvd>, i: nat, it: Item)
    requires Inv(p, rs) && i < |rs| && rs[i].kind.bulk && BulkTip(p, rs[i]) && CanShare(p, rs[i], it.sgl, it.ext)
    requires it.ext.len > 0
    ensures var h := Last(rs[i].hdls).value;
            var r := UseHdl(Share(p, h), rs[i], h, it.ext);
            && Inv(r.pool, rs[i := r.d]) && BulkTip(r.pool, r.d) && Placed(rs[i], r, it.ext)
            && Last(rs[i].regions).hdl == Some(h) && Last(r.d.regions).Lo() == Last(rs[i].regions).Hi()
  {
    var e := it.ext;
    var h := Last(rs[i].hdls).value;
    ShareFacts(p, rs, i, it);
    var g := p.heap[h.chk].loc.g;
    var pgs := p.grps[g].pgs;
    var r := UseHdl(Share(p, h), rs[i], h, e);
    var q := r.pool;
    assert Joined(p, q, h, g);
    JoinCore(p, q, rs, i, h, g);
    var rs1 := rs[i := Push(rs[i], h)];
    var reg := Region(h.chk, Hd(p, h).pgIdx, Hd(p, h).used, e.off, e.End(), e.media, Some(h), e.PgOff() + e.prefix);
    assert e.PgCnt() <= pgs;
    HandleRegion(h, Hd(p, h).pgIdx, Hd(p, h).used, pgs, e);
    SharedFree(p, q, rs, i, h, g, reg);
    AddRegionCore(q, rs1, i, reg);
    assert r.d == AddRegion(Push(rs[i], h), reg);
    assert rs1[i := r.d] == rs[i := r.d];
    TakenIndex(p, q, h, g);
    TipAt(p, rs, i, h);
  }

  /** The last region of a descriptor whose latest entry is h lies at the handle's page. */
  lemma TipAt(p: Pool, rs: seq<Rsrvd>, i: nat, h: HdlRef)
    requires Core(p, rs) && i < |rs| && BulkTip(p, rs[i]) && rs[i].hdls != [] && Last(rs[i].hdls) == Some(h)
    ensures Last(rs[i].regions).pgIdx == Hd(p, h).pgIdx
  {
    RegionAt(p, rs, i, |rs[i].regions| - 1);
  }

  /** The region behind the bytes of a shared handle used so far. */
  lemma SharedFree(p: Pool, q: Pool, rs: seq<Rsrvd>, i: nat, h: HdlRef, g: nat, reg: Region)
    requires Core(p, rs) && i < |rs| && Joined(p, q, h, g) && Some(h) in rs[i].hdls
    requires Core(q, rs[i := Push(rs[i], h)]) && Index(p)
    requires reg.Wf() && reg.hdl == Some(h) && reg.chk == h.chk && reg.pgIdx == Hd(q, h).pgIdx && reg.media.Scm?
    requires reg.reqOff == Hd(q, h).bulkOff
    requires reg.Lo() == reg.pgIdx * 4096 + Hd(p, h).used && reg.Hi() <= reg.pgIdx * 4096 + Hd(q, h).used
    ensures RegionOk(q, Push(rs[i], h), reg)
    ensures Free(rs[i := Push(rs[i], h)], i, |rs[i].regions|, reg)
  {
    var d := Push(rs[i], h);
    forall k | 0 <= k < |d.regions| && d.regions[k].hdl == Some(h) ensures d.regions[k].Hi() <= reg.Lo() {
      RegionAt(p, rs, i, k);
    }
    assert Some(h) in d.hdls;
    HandleFree(q, rs[i := d], i, h, reg);
  }

  lemma {:induction false} EvictAllHdls(p: Pool, cs: seq<ChunkId>)
    ensures EvictAll(p, cs).hdls == p.hdls
    decreases |cs|
  {
    if cs != [] {
      EvictAllHdls(EvictOne(p, cs[0]), cs[1..]);
    }
  }

  lemma GrpAddHdls(p: Pool, pgs: nat)
    ensures GrpAdd(p, pgs).0.hdls == p.hdls
  {
    if |p.grps| >= p.cfg.grpMax {
      var v := FirstIdleGrp(p, p.lru);
      if v.Some? {
        EvictAllHdls(p, Grp(p, v.value).chks);
      }
    }
  }

  lemma GrpGetHdls(p: Pool, pgs: nat)
    ensures GrpGet(p, pgs).0.hdls == p.hdls
  {
    GrpAddHdls(p, pgs);
  }

  lemma GrpGrowHdls(p: Pool, g: nat, memOk: bool, regOk: bool)
    ensures GrpGrow(p, g, memOk, regOk).0 != Ok ==> GrpGrow(p, g, memOk, regOk).1.hdls == p.hdls
  {
  }

  /** `bulk_get_hdl` finds an idle handle of the requested size, or changes no handle. */
  lemma FindIdleInv(p: Pool, rs: seq<Rsrvd>, pgs: nat, memOk: bool, regOk: bool)
    requires Inv(p, rs) && 0 < pgs <= p.cfg.chkSz
    ensures var (rc, q, g) := FindIdle(p, pgs, memOk, regOk);
            && Inv(q, rs) && rc != Overflow && q.cfg == p.cfg
            && (rc != Ok ==> q.hdls == p.hdls)
            && (rc == Ok ==> g < |q.grps| && q.grps[g].pgs == pgs && q.grps[g].idleHdls != [])
  {
    var (p1, og) := GrpGet(p, pgs);
    GrpGetInv(p, rs, pgs);
    GrpGetHdls(p, pgs);
    if og.Some? {
      GrpGrowInv(p1, rs, og.value, memOk, regOk);
      GrpGrowHdls(p1, og.value, memOk, regOk);
    }
  }

  lemma BulkNewShape(p: Pool, d: Rsrvd, it: Item, rc: Rc, q: Pool, g: nat)
    requires ItemOk(it) && it.ext.len > 0 && !Bypass(p.cfg, d.kind, it.ext) && !CanShare(p, d, it.sgl, it.ext)
    requires FindIdle(p, RoundUpPgs(p.cfg.chkSz, it.ext.PgCnt()), it.memOk, it.regOk) == (rc, q, g)
    ensures rc != Ok ==> BulkMapOne(p, d, it) == MapRes(rc, q, d, Null)
    ensures rc == Ok && g < |q.grps| && q.grps[g].idleHdls != [] ==>
              var h := q.grps[g].idleHdls[0];
              BulkMapOne(p, d, it) == UseHdl(Hold(q, h, it.sgl, it.ext), d, h, it.ext)
  {
  }

  lemma UseHdlMapped(p: Pool, rs: seq<Rsrvd>, i: nat, it: Item, q: Pool, h: HdlRef)
    requires i < |rs| && it.ext.len > 0 && !Bypass(p.cfg, rs[i].kind, it.ext) && q.cfg == p.cfg
    requires var r := UseHdl(q, rs[i], h, it.ext);
             Inv(r.pool, rs[i := r.d]) && BulkTip(r.pool, r.d) && Placed(rs[i], r, it.ext)
    ensures BulkMapped(p, rs, i, it, UseHdl(q, rs[i], h, it.ext))
  {
  }

  lemma FailMapped(p: Pool, rs: seq<Rsrvd>, i: nat, it: Item, q: Pool, rc: Rc)
    requires Inv(q, rs) && i < |rs| && BulkTip(p, rs[i]) && q.cfg == p.cfg && q.hdls == p.hdls && rc != Ok
             && rc != Overflow
    ensures BulkMapped(p, rs, i, it, MapRes(rc, q, rs[i], Null))
  {
    assert rs[i := rs[i]] == rs;
  }

  /** `bulk_get_hdl` without a handle to share, and the rest of `bulk_map_one`. */
  lemma BulkNewInv(p: Pool, rs: seq<Rsrvd>, i: nat, it: Item)
    requires Inv(p, rs) && i < |rs| && rs[i].kind.bulk && BulkTip(p, rs[i]) && ItemOk(it) && it.ext.len > 0
    requires !Bypass(p.cfg, rs[i].kind, it.ext) && !CanShare(p, rs[i], it.sgl, it.ext)
    ensures BulkMapped(p, rs, i, it, BulkMapOne(p, rs[i], it))
  {
    ExtentFitsPages(it.ext);
    var pgs := RoundUpPgs(p.cfg.chkSz, it.ext.PgCnt());
    RoundUpSpec(p.cfg.chkSz, it.ext.PgCnt());
    var (rc, q, g) := FindIdle(p, pgs, it.memOk, it.regOk);
    FindIdleInv(p, rs, pgs, it.memOk, it.regOk);
    BulkNewShape(p, rs[i], it, rc, q, g);
    if rc == Ok {
      var h := q.grps[g].idleHdls[0];
      UseNewInv(q, rs, i, g, h, it);
      UseHdlMapped(p, rs, i, it, Hold(q, h, it.sgl, it.ext), h);
    } else {
      FailMapped(p, rs, i, it, q, rc);
    }
  }

  /** `bulk_map_one` with a shared handle. */
  lemma BulkSharedInv(p: Pool, rs: seq<Rsrvd>, i: nat, it: Item)
    requires Inv(p, rs) && i < |rs| && rs[i].kind.bulk && BulkTip(p, rs[i]) && ItemOk(it) && it.ext.len > 0
    requires !Bypass(p.cfg, rs[i].kind, it.ext) && CanShare(p, rs[i], it.sgl, it.ext)
    ensures BulkMapped(p, rs, i, it, BulkMapOne(p, rs[i], it))
  {
    var h := Last(rs[i].hdls).value;
    UseSharedInv(p, rs, i, it);
    UseHdlMapped(p, rs, i, it, Share(p, h), h);
    assert BulkMapOne(p, rs[i], it) == UseHdl(Share(p, h), rs[i], h, it.ext);
  }

  /** `bulk_map_one` without a handle. */
  lemma BulkBypassInv(p: Pool, rs: seq<Rsrvd>, i: nat, it: Item)
    requires Inv(p, rs) && i < |rs| && rs[i].kind.bulk && ItemOk(it)
    requires it.ext.len == 0 || Bypass(p.cfg, rs[i].kind, it.ext)
    ensures BulkMapped(p, rs, i, it, BulkMapOne(p, rs[i], it))
  {
    if it.ext.len == 0 {
      PushNoneCore(p, rs, i);
    } else {
      BypassInv(p, rs, i, it.ext, it.memOk);
      var r := MapOne(p, rs[i], it.ext, it.memOk);
      var rt := rs[i := r.d];
      PushNoneCore(r.pool, rt, i);
      assert rt[i := PushNone(r).d] == rs[i := PushNone(r).d];
    }
  }

  /** `bulk_map_one`: the invariant is kept, the extent lies in the descriptor's last region, and the handle array
      gains one entry, which is empty exactly for empty and bypassed extents. */
  lemma BulkMapOneInv(p: Pool, rs: seq<Rsrvd>, i: nat, it: Item)
    requires Inv(p, rs) && i < |rs| && rs[i].kind.bulk && BulkTip(p, rs[i]) && ItemOk(it)
    ensures BulkMapped(p, rs, i, it, BulkMapOne(p, rs[i], it))
  {
    if it.ext.len == 0 || Bypass(p.cfg, rs[i].kind, it.ext) {
      BulkBypassInv(p, rs, i, it);
    } else if CanShare(p, rs[i], it.sgl, it.ext) {
      BulkSharedInv(p, rs, i, it);
    } else {
      BulkNewInv(p, rs, i, it);
    }
  }
}
