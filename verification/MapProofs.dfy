/** `dma_map_one`: merging, padding and bump allocation keep the invariant, keep the last region at the
    cursor of its chunk, and give every extent a buffer at a fixed distance from its place on media. */
module MapProofs {
  import opened BioTypes
  import opened SeqLib
  import opened Pool
  import opened PoolInv
  import opened ReserveProofs

  /** While a descriptor is being mapped its last region ends at the cursor of its chunk. */
  predicate Tip(p: Pool, d: Rsrvd) {
    d.regions != [] && Last(d.regions).hdl.None? && Chk(p, Last(d.regions).chk).loc.OnUsed?
    ==> Chk(p, Last(d.regions).chk).pgIdx == Last(d.regions).HiPg()
  }

  /** Buffer `b` of extent `e` lies in region `r`: an NVMe extent as far from the first page of the region
      in memory as on the device, an SCM extent as the whole region. */
  predicate Covers(r: Region, e: Extent, b: Buf) {
    && b.Dma? && b.chk == r.chk && r.media == e.media
    && if e.media.Nvme?
       then r.off <= e.off && e.End() <= r.end && b.off - r.pgIdx * 4096 == e.off - FloorPg(r.off) * 4096
       else r.off == e.off && r.end == e.End() && b.off == r.pgIdx * 4096 + r.chkOff
  }

  /** `d2` holds the regions of `d`, the last one possibly widened, and possibly one more. */
  ghost predicate Grown(d: Rsrvd, d2: Rsrvd) {
    && d2.kind == d.kind && |d.regions| <= |d2.regions| <= |d.regions| + 1
    && forall k :: 0 <= k < |d.regions| ==> Within(d.regions[k], d2.regions[k])
  }

  /** `r2` is `r`, widened without moving its first page. */
  predicate Within(r: Region, r2: Region) {
    && r2.chk == r.chk && r2.pgIdx == r.pgIdx && r2.chkOff == r.chkOff && r2.media == r.media
    && r2.hdl == r.hdl && r2.reqOff == r.reqOff
    && r2.off <= r.off && r.end <= r2.end && FloorPg(r2.off) == FloorPg(r.off)
    && (r.media.Scm? ==> r2 == r)
  }

  /** What `dma_map_one` promises for a mapped extent. */
  ghost predicate Placed(d: Rsrvd, r: MapRes, e: Extent) {
    && Grown(d, r.d)
    && (r.rc == Ok && r.buf.Dma? ==> r.d.regions != [] && Covers(Last(r.d.regions), e, r.buf))
  }

  // ---------------------------------------------------------------------------------------------
  // Geometry of one region
  // ---------------------------------------------------------------------------------------------

  lemma RegionSpan(r: Region)
    requires r.Wf()
    ensures 0 <= r.Lo() < r.Hi()
    ensures r.LoPg() < r.HiPg()
    ensures r.media.Nvme? ==> r.LoPg() == r.pgIdx && r.HiPg() == r.pgIdx + CeilPg(r.end) - FloorPg(r.off)
  {
    if r.media.Nvme? {
      assert r.Lo() == r.pgIdx * 4096;
      assert CeilPg(r.end) > FloorPg(r.off);
    }
  }

  /** The region a bump reservation of extent e makes at page `idx`. */
  lemma NewRegionSpan(c: ChunkId, idx: nat, e: Extent)
    requires e.len > 0
    ensures var r := NewRegion(c, idx, 0, e);
            r.Wf() && r.LoPg() == idx && r.HiPg() == idx + e.PgCnt()
            && Covers(r, e, Dma(c, idx * 4096 + e.PgOff()))
  {
    var r := NewRegion(c, idx, 0, e);
    RegionSpan(r);
    if e.media.Scm? {
      assert r.Lo() == idx * 4096 && r.Hi() == idx * 4096 + e.len;
      assert CeilPg(idx * 4096 + e.len) == idx + CeilPg(e.len);
    }
  }

  /** Merging: the page reserved next is the cursor or the page before it, the widened region reaches
      exactly the new cursor, and distances between memory and device stay the same. */
  lemma ExpandSpan(r: Region, e: Extent)
    requires r.Wf() && e.len > 0 && Mergeable(r, e)
    ensures var idx := ExpandIdx(r, e.off);
            var w := Widen(r, e);
            && (idx == r.HiPg() || idx + 1 == r.HiPg())
            && r.HiPg() <= idx + e.PgCnt() == w.HiPg()
            && w.Wf() && w.LoPg() == r.LoPg() && w.Lo() == r.Lo() && r.Hi() <= w.Hi()
            && Within(r, w)
            && Covers(w, e, Dma(r.chk, idx * 4096 + e.PgOff()))
    ensures r.off >= e.off ==> FloorPg(r.off) == FloorPg(r.end)
  {
    var w := Widen(r, e);
    RegionSpan(r);
    assert w.Wf();
    RegionSpan(w);
    if r.off < e.off {
      assert FloorPg(r.off) <= FloorPg(r.end);
    }
  }

  /** Padding: the new region starts where the last one ends and stays in its last page. */
  lemma PadSpan(r: Region, e: Extent)
    requires r.Wf() && r.media.Scm? && e.media.Scm? && e.len > 0
    requires PadOff(r) % 4096 != 0 && PadOff(r) % 4096 + e.len <= 4096
    ensures var w := NewRegion(r.chk, r.pgIdx, PadOff(r), e);
            && w.Wf() && w.Lo() == r.Hi() && w.HiPg() == r.HiPg() && r.LoPg() <= w.LoPg() < r.HiPg()
            && Covers(w, e, Dma(r.chk, r.pgIdx * 4096 + PadOff(r)))
  {
    var w := NewRegion(r.chk, r.pgIdx, PadOff(r), e);
    var x := PadOff(r);
    assert r.Hi() == r.pgIdx * 4096 + x;
    assert w.Hi() == r.pgIdx * 4096 + x + e.len;
    assert CeilPg(r.pgIdx * 4096 + x) == r.pgIdx + CeilPg(x);
    assert CeilPg(r.pgIdx * 4096 + x + e.len) == r.pgIdx + CeilPg(x + e.len);
    assert FloorPg(r.pgIdx * 4096 + x) == r.pgIdx + FloorPg(x);
    assert CeilPg(x + e.len) == CeilPg(x) == FloorPg(x) + 1;
    assert FloorPg(r.Lo()) <= FloorPg(w.Lo());
  }

  // ---------------------------------------------------------------------------------------------
  // Regions of other descriptors
  // ---------------------------------------------------------------------------------------------

  lemma RegionAt(p: Pool, rs: seq<Rsrvd>, i: nat, k: nat)
    requires Core(p, rs) && i < |rs| && k < |rs[i].regions|
    ensures RegionOk(p, rs[i], rs[i].regions[k])
    ensures !rs[i].kind.bulk ==> rs[i].regions[k].hdl.None?
    ensures rs[i].regions[k].hdl.None? ==> HoldsChk(p, rs[i], rs[i].regions[k].chk)
  {
    Open(p, rs);
    assert RegionOk(p, rs[i], rs[i].regions[k]);
    assert KindOk(rs[i]);
  }

  lemma ApartAt(p: Pool, rs: seq<Rsrvd>, i: nat, k: nat, j: nat, l: nat)
    requires Core(p, rs) && i < |rs| && k < |rs[i].regions| && j < |rs| && l < |rs[j].regions|
    ensures i != j ==> Apart(rs[i].regions[k], rs[j].regions[l])
    ensures i == j && k < l ==> Before(rs[i].regions[k], rs[j].regions[l])
  {
    Open(p, rs);
    assert KindOk(rs[i]);
  }

  lemma IdleAt(p: Pool, rs: seq<Rsrvd>, c: ChunkId)
    requires Core(p, rs)
    ensures c in p.idle ==> c in p.heap && p.heap[c].loc == OnIdle && p.heap[c].pgIdx == 0
    ensures p.cfg.Valid()
  {
    Open(p, rs);
    assert c in p.idle ==> Chk(p, c).loc == OnIdle && ChunkOk(p, p.heap[c]);
  }

  /** A region on a used or huge chunk is not in a handle, and lies below the cursor. */
  lemma BelowCursor(p: Pool, rs: seq<Rsrvd>, j: nat, l: nat)
    requires Core(p, rs) && j < |rs| && l < |rs[j].regions| && !Chk(p, rs[j].regions[l].chk).loc.InGrp?
    ensures var q := rs[j].regions[l];
            q.Wf() && q.hdl.None? && q.chk in rs[j].chks && q.LoPg() < q.HiPg() <= Limit(p, q.chk) && q.chk in p.heap
  {
    var q := rs[j].regions[l];
    RegionAt(p, rs, j, l);
    RegionSpan(q);
    if q.hdl.Some? {
      Open(p, rs);
      HeldLive(p, rs, j, q.hdl.value);
    }
  }

  /** A region above the cursor of a used chunk is apart from everything reserved so far. */
  lemma AboveCursor(p: Pool, rs: seq<Rsrvd>, i: nat, r: Region)
    requires Core(p, rs) && i < |rs| && r.Wf() && Chk(p, r.chk).loc == OnUsed && Chk(p, r.chk).pgIdx <= r.LoPg()
    ensures Free(rs, i, |rs[i].regions|, r)
  {
    forall j, l | 0 <= j < |rs| && 0 <= l < |rs[j].regions| && rs[j].regions[l].chk == r.chk
      ensures rs[j].regions[l].HiPg() <= r.LoPg() && rs[j].regions[l].Hi() <= r.Lo()
    {
      BelowCursor(p, rs, j, l);
      RegionSpan(rs[j].regions[l]);
    }
  }

  // ---------------------------------------------------------------------------------------------
  // The branches of dma_map_one
  // ---------------------------------------------------------------------------------------------

  /** The shape of what a bump reservation leaves behind. */
  lemma BumpShape(p: Pool, d: Rsrvd, c: ChunkId, e: Extent)
    requires e.len > 0
    ensures var r := Bump(p, d, c, e, false);
            Tip(r.pool, r.d) && Placed(d, r, e)
  {
    NewRegionSpan(c, Chk(p, c).pgIdx, e);
  }

  lemma BumpFree(p: Pool, rs: seq<Rsrvd>, i: nat, c: ChunkId, e: Extent)
    requires Core(p, rs) && i < |rs| && e.len > 0 && Chk(p, c).loc == OnUsed && c in rs[i].chks && CanBump(p, c, e)
    ensures var idx := Chk(p, c).pgIdx;
            var reg := NewRegion(c, idx, 0, e);
            Free(rs, i, |rs[i].regions|, reg) && RegionOk(Reserve(p, c, idx, e.PgCnt()), rs[i], reg)
  {
    var idx := Chk(p, c).pgIdx;
    ExtentFitsPages(e);
    NewRegionSpan(c, idx, e);
    AboveCursor(p, rs, i, NewRegion(c, idx, 0, e));
  }

  lemma BumpInv(p: Pool, rs: seq<Rsrvd>, i: nat, c: ChunkId, e: Extent)
    requires Inv(p, rs) && i < |rs| && !rs[i].kind.bulk && e.len > 0
    requires Chk(p, c).loc == OnUsed && c in rs[i].chks && CanBump(p, c, e)
    ensures Inv(Bump(p, rs[i], c, e, false).pool, rs[i := Bump(p, rs[i], c, e, false).d])
  {
    var idx := Chk(p, c).pgIdx;
    var q := Reserve(p, c, idx, e.PgCnt());
    var reg := NewRegion(c, idx, 0, e);
    BumpFree(p, rs, i, c, e);
    CursorCore(p, rs, c, idx, e.PgCnt());
    AddRegionCore(q, rs, i, reg);
    var r := Bump(p, rs[i], c, e, false);
    assert r.pool == q && r.d == AddRegion(rs[i], reg);
  }

  /** Reserving at the cursor of a used chunk the descriptor did not hold yet. */
  lemma BumpRefInv(p: Pool, rs: seq<Rsrvd>, i: nat, c: ChunkId, e: Extent)
    requires Inv(p, rs) && i < |rs| && !rs[i].kind.bulk && e.len > 0
    requires Chk(p, c).loc == OnUsed && Chk(p, c).ctype == rs[i].kind.ctype && CanBump(p, c, e)
    ensures var r := Bump(p, rs[i], c, e, true);
            Inv(r.pool, rs[i := r.d]) && Tip(r.pool, r.d) && Placed(rs[i], r, e)
  {
    var q := AddRef(p, c);
    var d := AddChk(rs[i], c);
    AddRefCore(p, rs, i, c);
    BumpInv(q, rs[i := d], i, c, e);
    BumpShape(q, d, c, e);
    BumpCommutes(p, rs[i], c, e);
    var r := Bump(p, rs[i], c, e, true);
    assert rs[i := d][i := r.d] == rs[i := r.d];
  }

  /** Taking the reference before or after moving the cursor is the same. */
  lemma BumpCommutes(p: Pool, d: Rsrvd, c: ChunkId, e: Extent)
    ensures Bump(p, d, c, e, true) == Bump(AddRef(p, c), AddChk(d, c), c, e, false)
  {
    var idx := Chk(p, c).pgIdx;
    assert AddRef(Reserve(p, c, idx, e.PgCnt()), c).heap == Reserve(AddRef(p, c), c, idx, e.PgCnt()).heap;
  }

  lemma FreshInv(p: Pool, rs: seq<Rsrvd>, i: nat, e: Extent)
    requires Inv(p, rs) && i < |rs| && !rs[i].kind.bulk && e.len > 0 && e.PgCnt() <= p.cfg.chkSz && p.idle != []
    ensures var c := p.idle[0];
            var q := TakeIdle(p, rs[i].kind.ctype);
            var r := Bump(q, rs[i], c, e, true);
            CanBump(q, c, e) && Inv(r.pool, rs[i := r.d]) && Tip(r.pool, r.d) && Placed(rs[i], r, e)
  {
    var c := p.idle[0];
    assert c in p.idle;
    IdleAt(p, rs, c);
    var q := TakeIdle(p, rs[i].kind.ctype);
    var d := AddChk(rs[i], c);
    TakeCore(p, rs, i);
    BumpInv(AddRef(q, c), rs[i := d], i, c, e);
    BumpShape(AddRef(q, c), d, c, e);
    BumpCommutes(q, rs[i], c, e);
    var r := Bump(q, rs[i], c, e, true);
    assert rs[i := d][i := r.d] == rs[i := r.d];
  }

  /** No region lies on a chunk that does not exist yet. */
  lemma FreshAt(p: Pool, rs: seq<Rsrvd>, c: ChunkId)
    requires Core(p, rs) && c >= p.next
    ensures forall j, l :: 0 <= j < |rs| && 0 <= l < |rs[j].regions| ==> rs[j].regions[l].chk != c
  {
    assert c !in p.heap by { Open(p, rs); }
    forall j, l | 0 <= j < |rs| && 0 <= l < |rs[j].regions| ensures rs[j].regions[l].chk != c {
      if rs[j].regions[l].chk == c {
        BelowCursor(p, rs, j, l);
      }
    }
  }

  lemma HugeInv(p: Pool, rs: seq<Rsrvd>, i: nat, e: Extent)
    requires Inv(p, rs) && i < |rs| && e.len > 0 && e.PgCnt() > p.cfg.chkSz
    ensures var r := MapHuge(p, rs[i], e);
            Inv(r.pool, rs[i := r.d]) && Tip(r.pool, r.d) && Placed(rs[i], r, e)
  {
    var c := p.next;
    assert p.cfg.Valid() by { Open(p, rs); }
    var d := AddChk(rs[i], c);
    var reg := NewRegion(c, 0, 0, e);
    var q := AllocHuge(p, e.PgCnt(), rs[i].kind.ctype);
    HugeCore(p, rs, i, e.PgCnt());
    NewRegionSpan(c, 0, e);
    FreshAt(p, rs, c);
    AddRegionCore(q, rs[i := d], i, reg);
    var r := MapHuge(p, rs[i], e);
    assert rs[i := d][i := r.d] == rs[i := r.d];
  }

  /** A widened last region stays clear of everything else, since nothing lies above its end. */
  lemma ExpandFree(p: Pool, rs: seq<Rsrvd>, i: nat, w: Region)
    requires Core(p, rs) && i < |rs| && !rs[i].kind.bulk && rs[i].regions != [] && Tip(p, rs[i])
    requires var r := Last(rs[i].regions);
             Chk(p, r.chk).loc == OnUsed && w.chk == r.chk && w.LoPg() == r.LoPg() && w.Lo() == r.Lo()
    ensures Free(rs, i, |rs[i].regions| - 1, w)
  {
    var n := |rs[i].regions| - 1;
    RegionAt(p, rs, i, n);
    forall j, l | 0 <= j < |rs| && j != i && 0 <= l < |rs[j].regions| ensures Apart(w, rs[j].regions[l]) {
      ApartAt(p, rs, i, n, j, l);
      if rs[j].regions[l].chk == w.chk {
        BelowCursor(p, rs, j, l);
      }
    }
    forall k | 0 <= k < n ensures Before(rs[i].regions[k], w) {
      ApartAt(p, rs, i, k, i, n);
      RegionAt(p, rs, i, k);
    }
  }

  lemma ExpandShape(p: Pool, d: Rsrvd, e: Extent)
    requires d.regions != [] && Last(d.regions).Wf() && e.len > 0 && Mergeable(Last(d.regions), e)
    ensures var r := Expand(p, d, e);
            Tip(r.pool, r.d) && Placed(d, r, e)
  {
    ExpandSpan(Last(d.regions), e);
  }

  /** The widened region of `Expand` can replace the last one. */
  lemma ExpandOk(p: Pool, rs: seq<Rsrvd>, i: nat, e: Extent)
    requires Core(p, rs) && i < |rs| && !rs[i].kind.bulk && e.len > 0 && Tip(p, rs[i]) && CanExpand(p, rs[i], e)
    ensures var r := Last(rs[i].regions);
            var idx := ExpandIdx(r, e.off);
            && r.Wf() && Chk(p, r.chk).loc == OnUsed && r.hdl.None?
            && Chk(p, r.chk).pgIdx <= idx + e.PgCnt()
            && Free(rs, i, |rs[i].regions| - 1, Widen(r, e))
            && RegionOk(Reserve(p, r.chk, idx, e.PgCnt()), rs[i], Widen(r, e))
  {
    var r := Last(rs[i].regions);
    RegionAt(p, rs, i, |rs[i].regions| - 1);
    ExpandSpan(r, e);
    ExpandFree(p, rs, i, Widen(r, e));
  }

  lemma ExpandInv(p: Pool, rs: seq<Rsrvd>, i: nat, e: Extent)
    requires Inv(p, rs) && i < |rs| && !rs[i].kind.bulk && e.len > 0 && Tip(p, rs[i]) && CanExpand(p, rs[i], e)
    ensures var r := Expand(p, rs[i], e);
            Inv(r.pool, rs[i := r.d]) && Tip(r.pool, r.d) && Placed(rs[i], r, e)
  {
    var r := Last(rs[i].regions);
    var idx := ExpandIdx(r, e.off);
    var q := Reserve(p, r.chk, idx, e.PgCnt());
    var d := rs[i].(regions := rs[i].regions[|rs[i].regions| - 1 := Widen(r, e)]);
    ExpandOk(p, rs, i, e);
    CursorCore(p, rs, r.chk, idx, e.PgCnt());
    WidenCore(q, rs, i, Widen(r, e));
    assert Core(q, rs[i := d]);
    assert Expand(p, rs[i], e).pool == q && Expand(p, rs[i], e).d == d;
    ExpandShape(p, rs[i], e);
  }

  /** The bytes after the last region, up to the end of its last page, are free. */
  lemma PadFree(p: Pool, rs: seq<Rsrvd>, i: nat, w: Region)
    requires Core(p, rs) && i < |rs| && !rs[i].kind.bulk && rs[i].regions != []
    requires var r := Last(rs[i].regions);
             w.chk == r.chk && w.Lo() == r.Hi() && w.HiPg() == r.HiPg() && r.LoPg() <= w.LoPg()
    ensures Free(rs, i, |rs[i].regions|, w)
  {
    var n := |rs[i].regions| - 1;
    RegionAt(p, rs, i, n);
    RegionSpan(rs[i].regions[n]);
    forall j, l | 0 <= j < |rs| && j != i && 0 <= l < |rs[j].regions| ensures Apart(w, rs[j].regions[l]) {
      ApartAt(p, rs, i, n, j, l);
    }
    forall k | 0 <= k <= n ensures Before(rs[i].regions[k], w) {
      if k < n {
        ApartAt(p, rs, i, k, i, n);
        RegionAt(p, rs, i, k);
      }
    }
  }

  lemma PadInv(p: Pool, rs: seq<Rsrvd>, i: nat, e: Extent)
    requires Inv(p, rs) && i < |rs| && !rs[i].kind.bulk && e.len > 0 && Tip(p, rs[i]) && CanPad(rs[i], e)
    ensures var r := Pad(p, rs[i], e);
            Inv(r.pool, rs[i := r.d]) && Tip(r.pool, r.d) && Placed(rs[i], r, e)
  {
    var r := Last(rs[i].regions);
    RegionAt(p, rs, i, |rs[i].regions| - 1);
    PadSpan(r, e);
    var w := NewRegion(r.chk, r.pgIdx, PadOff(r), e);
    PadFree(p, rs, i, w);
    AddRegionCore(p, rs, i, w);
  }
}
