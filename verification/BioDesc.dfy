/** The I/O descriptor in place: mapping extents and releasing what was mapped, proved to compute the functions of
    Pool.dfy.  The assertions of the C code appear as asserts and as requires that the callers meet. */
module BioDescriptor {
  import opened BioTypes
  import opened Folding
  import opened SeqLib
  import opened Pool
  import opened PoolInv
  import opened MapProofs
  import opened Mapping
  import opened MapRun
  import opened GroupProofs
  import opened ReleaseProofs
  import opened ReleaseRun
  import opened HandleProofs
  import opened Rounding
  import opened DmaBuf
  import opened Lookup

  /** What the assertions of `chunk_reserve` say about reserving at page idx of chunk c. */
  predicate MayReserve(p: Pool, c: ChunkId, idx: nat) {
    !Chk(p, c).loc.Unlinked? ==> Chk(p, c).pgIdx <= p.cfg.chkSz
                                 && (idx == Chk(p, c).pgIdx || idx + 1 == Chk(p, c).pgIdx)
  }

  /** A chunk of any list has its cursor inside. */
  lemma CursorInside(p: Pool, rs: seq<Rsrvd>, c: ChunkId)
    requires Core(p, rs)
    ensures MayReserve(p, c, Chk(p, c).pgIdx)
  {
    Open(p, rs);
    if c in p.heap {
      assert ChunkOk(p, p.heap[c]);
    }
  }

  /** `iod_expand_region` continues its region at the cursor of the chunk or one page before it. */
  lemma ExpandReserves(p: Pool, rs: seq<Rsrvd>, i: nat, e: Extent)
    requires Core(p, rs) && i < |rs| && !rs[i].kind.bulk && Tip(p, rs[i]) && rs[i].regions != []
    requires e.len > 0 && Mergeable(Last(rs[i].regions), e)
    ensures MayReserve(p, Last(rs[i].regions).chk, ExpandIdx(Last(rs[i].regions), e.off))
    ensures var r := Last(rs[i].regions);
            r.off >= e.off ==> FloorPg(r.off) == FloorPg(r.end)
  {
    var r := Last(rs[i].regions);
    RegionAt(p, rs, i, |rs[i].regions| - 1);
    ExpandSpan(r, e);
    CursorInside(p, rs, r.chk);
  }

  /** What `bulk_hdl2addr` asserts about handle h when extent e is put into it. */
  predicate MayUse(p: Pool, h: HdlRef, e: Extent) {
    var hd := Hd(p, h);
    hd.inuse > 0 && if hd.shareable then hd.bulkOff == 0 && e.PgOff() == 0 else hd.used == 0
  }

  lemma HoldUsable(p: Pool, g: nat, h: HdlRef, it: Item)
    requires IdleHdl(p, g, h)
    ensures MayUse(Hold(p, h, it.sgl, it.ext), h, it.ext)
  {
  }

  class BioDesc {
    const buf: DmaBuffer
    const kind: Kind
    var regions: seq<Region>
    var chks: seq<ChunkId>
    var hdls: seq<Option<HdlRef>>
    var bulkMax: nat
    var places: seq<Place>
    var retry: bool
    var prep: bool

    constructor (buf: DmaBuffer, kind: Kind)
      ensures this.buf == buf && this.kind == kind && Abs() == Empty(kind) && places == [] && !retry && !prep
    {
      this.buf := buf;
      this.kind := kind;
      regions, chks, hdls, bulkMax, places, retry, prep := [], [], [], 0, [], false, false;
    }

    function Abs(): Rsrvd
      reads this
    {
      Rsrvd(kind, regions, chks, hdls)
    }

    // -------------------------------------------------------------------------------------------
    // dma_map_one
    // -------------------------------------------------------------------------------------------

    /** `iod_add_chunk` */
    method AddChunk(c: ChunkId)
      modifies this`chks, buf`heap
      ensures buf.Abs() == AddRef(old(buf.Abs()), c) && Abs() == AddChk(old(Abs()), c)
    {
      var chk := buf.ChkOf(c);
      buf.heap := buf.heap[c := chk.(refs := chk.refs + 1)];
      chks := chks + [c];
    }

    /** `iod_expand_region` */
    method ExpandRegion(e: Extent) returns (ok: bool, b: Buf)
      requires regions != [] && e.len > 0
      requires Mergeable(Last(regions), e) ==>
                 MayReserve(buf.Abs(), Last(regions).chk, ExpandIdx(Last(regions), e.off))
                 && (Last(regions).off >= e.off ==> FloorPg(Last(regions).off) == FloorPg(Last(regions).end))
      requires Last(regions).Wf() && Last(regions).pgIdx < buf.cfg.chkSz
      modifies this`regions, buf`heap
      ensures ok <==> CanExpand(old(buf.Abs()), old(Abs()), e)
      ensures ok ==> MapRes(Ok, buf.Abs(), Abs(), b) == Expand(old(buf.Abs()), old(Abs()), e)
      ensures !ok ==> buf.Abs() == old(buf.Abs()) && Abs() == old(Abs())
    {
      var last := regions[|regions| - 1];
      var idx := last.pgIdx;
      assert idx < buf.cfg.chkSz;
      var prevStart, prevEnd, curPg := last.off / 4096, last.end / 4096, e.off / 4096;
      assert prevStart <= prevEnd;
      if e.media.Scm? || e.media != last.media {
        return false, Null;
      }
      if curPg != prevEnd {
        return false, Null;
      }
      if last.off < e.off {
        idx := idx + (prevEnd - prevStart);
      } else {
        assert prevEnd == prevStart;
      }
      ok := buf.ChunkReserve(last.chk, idx, e.PgCnt());
      if !ok {
        return false, Null;
      }
      if e.off < last.off {
        regions := regions[|regions| - 1 := last.(off := e.off)];
      }
      if e.End() > last.end {
        regions := regions[|regions| - 1 := regions[|regions| - 1].(end := e.End())];
      }
      b := Dma(last.chk, idx * 4096 + e.PgOff());
    }

    /** `iod_pad_region` */
    method PadRegion(e: Extent) returns (ok: bool, off: nat)
      requires regions != [] && Last(regions).Wf()
      ensures ok <==> CanPad(Abs(), e)
      ensures ok ==> off == PadOff(Last(regions))
    {
      var last := regions[|regions| - 1];
      if !e.media.Scm? || !last.media.Scm? {
        return false, 0;
      }
      assert last.end > last.off;
      off := last.chkOff + (last.end - last.off);
      var pgOff := off % 4096;
      if pgOff == 0 {
        return false, 0;
      }
      if pgOff + e.len > 4096 {
        return false, 0;
      }
      ok := true;
    }

    /** Reserving at the cursor of chunk c for a new region. */
    method BumpAt(c: ChunkId, e: Extent, ref: bool) returns (ok: bool, b: Buf)
      requires MayReserve(buf.Abs(), c, Chk(buf.Abs(), c).pgIdx)
      modifies this`regions, this`chks, buf`heap
      ensures ok <==> CanBump(old(buf.Abs()), c, e)
      ensures ok ==> MapRes(Ok, buf.Abs(), Abs(), b) == Bump(old(buf.Abs()), old(Abs()), c, e, ref)
      ensures !ok ==> b == Null && buf.Abs() == old(buf.Abs()) && Abs() == old(Abs())
    {
      var idx := buf.ChkOf(c).pgIdx;
      ok := buf.ChunkReserve(c, idx, e.PgCnt());
      if !ok {
        return false, Null;
      }
      b := Dma(c, idx * 4096 + e.PgOff());
      if ref {
        AddChunk(c);
      }
      regions := regions + [NewRegion(c, idx, 0, e)];
    }
  
    /** An extent larger than a chunk gets a chunk of its own. */
    method MapHugeExtent(e: Extent, memOk: bool) returns (rc: Rc, b: Buf)
      modifies this`regions, this`chks, buf`heap, buf`next
      ensures MapRes(rc, buf.Abs(), Abs(), b) == if memOk then MapHuge(old(buf.Abs()), old(Abs()), e)
                                                 else MapRes(NoMem, old(buf.Abs()), old(Abs()), Null)
    {
      if !memOk {
        return NoMem, Null;
      }
      var c := buf.next;
      buf.next := c + 1;
      buf.heap := buf.heap[c := NewChunk(e.PgCnt(), kind.ctype, Unlinked)];
      AddChunk(c);
      b := Dma(c, e.PgOff());
      regions := regions + [NewRegion(c, 0, 0, e)];
      rc := Ok;
    }

    /** `dma_map_one` from the switch to an idle chunk on. */
    method MapFreshExtent(e: Extent, memOk: bool, ghost rs: seq<Rsrvd>) returns (rc: Rc, b: Buf)
      requires Inv(buf.Abs(), rs)
      modifies this`regions, this`chks, this`retry, buf
      ensures MapRes(rc, buf.Abs(), Abs(), b) == MapFresh(old(buf.Abs()), old(Abs()), e, memOk)
      ensures retry == (old(retry) || rc == Again)
    {
      EnsureIdleInv(buf.Abs(), rs, None, memOk);
      rc := buf.MakeIdle(None, memOk, rs);
      if rc != Ok {
        retry := retry || rc == Again;
        return rc, Null;
      }
      IdleAt(buf.Abs(), rs, buf.idle[0]);
      var c := buf.TakeIdleChunk(kind.ctype);
      assert buf.ChkOf(c).pgIdx == 0;
      var ok;
      ok, b := BumpAt(c, e, true);
      rc := if ok then Ok else Overflow;
    }

    /** The part of `dma_map_one` that tries to continue behind the last region: in the region, in the rest of its last
        page, or in its chunk. */
    method MapBehindLast(e: Extent, ghost rs: seq<Rsrvd>, ghost i: nat) returns (ok: bool, b: Buf)
      requires Inv(buf.Abs(), rs) && i < |rs| && rs[i] == Abs() && !kind.bulk && Tip(buf.Abs(), Abs())
      requires regions != [] && e.len > 0
      modifies this`regions, this`chks, buf`heap
      ensures var p, d := old(buf.Abs()), old(Abs());
              if CanExpand(p, d, e) then ok && MapRes(Ok, buf.Abs(), Abs(), b) == Expand(p, d, e)
              else if CanPad(d, e) then ok && MapRes(Ok, buf.Abs(), Abs(), b) == Pad(p, d, e)
              else if LastChunkFits(p, d, e) then
                ok && MapRes(Ok, buf.Abs(), Abs(), b) == Bump(p, d, Last(d.regions).chk, e, false)
              else !ok && buf.Abs() == p && Abs() == d
    {
      RegionAt(buf.Abs(), rs, i, |regions| - 1);
      assert buf.ChkOf(Last(regions).chk).ctype == kind.ctype;
      if Mergeable(Last(regions), e) {
        ExpandReserves(buf.Abs(), rs, i, e);
      }
      ok, b := ExpandRegion(e);
      if ok {
        return;
      }
      var last := regions[|regions| - 1];
      var off;
      ok, off := PadRegion(e);
      if ok {
        b := Dma(last.chk, last.pgIdx * 4096 + off);
        regions := regions + [NewRegion(last.chk, last.pgIdx, off, e)];
        return;
      }
      CursorInside(buf.Abs(), rs, last.chk);
      assert buf.ChkOf(last.chk).ctype == kind.ctype;
      ok, b := BumpAt(last.chk, e, false);
    }

    /** The part of `dma_map_one` that tries the current chunk of the buffer and then an idle one. */
    method MapElsewhere(e: Extent, memOk: bool, ghost rs: seq<Rsrvd>) returns (rc: Rc, b: Buf)
      requires Inv(buf.Abs(), rs)
      modifies this`regions, this`chks, this`retry, buf
      ensures var p, d := old(buf.Abs()), old(Abs());
              MapRes(rc, buf.Abs(), Abs(), b) == if CurChunkFits(p, d, e) then Bump(p, d, p.cur[d.kind.ctype], e, true)
                                                 else MapFresh(p, d, e, memOk)
      ensures retry == (old(retry) || rc == Again)
    {
      if kind.ctype in buf.cur && (regions != [] ==> buf.cur[kind.ctype] != regions[|regions| - 1].chk) {
        CursorInside(buf.Abs(), rs, buf.cur[kind.ctype]);
        var ok;
        ok, b := BumpAt(buf.cur[kind.ctype], e, true);
        if ok {
          return Ok, b;
        }
      }
      rc, b := MapFreshExtent(e, memOk, rs);
    }

    /** `dma_map_one` */
    method MapExtent(e: Extent, memOk: bool, ghost rs: seq<Rsrvd>, ghost i: nat) returns (rc: Rc, b: Buf)
      requires Inv(buf.Abs(), rs) && i < |rs| && rs[i] == Abs()
      requires if kind.bulk then NoBuffer(buf.cfg, kind, e) || e.PgCnt() > buf.cfg.chkSz else Tip(buf.Abs(), Abs())
      modifies this`regions, this`chks, this`retry, buf
      ensures MapRes(rc, buf.Abs(), Abs(), b) == MapOne(old(buf.Abs()), old(Abs()), e, memOk)
      ensures retry == (old(retry) || rc == Again)
    {
      if e.len == 0 || e.hole {
        return Ok, Null;
      }
      if DirectScm(buf.cfg, kind, e) {
        return Ok, Direct(e.off);
      }
      if e.PgCnt() > buf.cfg.chkSz {
        rc, b := MapHugeExtent(e, memOk);
        return;
      }
      if regions != [] {
        var ok;
        ok, b := MapBehindLast(e, rs, i);
        if ok {
          return Ok, b;
        }
      }
      rc, b := MapElsewhere(e, memOk, rs);
    }

    // -------------------------------------------------------------------------------------------
    // bulk_map_one
    // -------------------------------------------------------------------------------------------

    /** `bulk_get_shared_hdl` */
    method SharedHandle(it: Item, ghost rs: seq<Rsrvd>, ghost i: nat) returns (oh: Option<HdlRef>)
      requires Inv(buf.Abs(), rs) && i < |rs| && rs[i] == Abs()
      modifies buf`hdls
      ensures oh.Some? <==> CanShare(old(buf.Abs()), Abs(), it.sgl, it.ext)
      ensures oh.Some? ==> oh == Last(hdls) && buf.Abs() == Share(old(buf.Abs()), oh.value)
                           && MayUse(buf.Abs(), oh.value, it.ext)
      ensures oh.None? ==> buf.Abs() == old(buf.Abs())
    {
      if Exclusive(it.ext) || hdls == [] {
        return None;
      }
      var prev := hdls[|hdls| - 1];
      if prev.None? {
        return None;
      }
      var h := prev.value;
      var hd := HdlIn(buf.hdls, h);
      if !hd.shareable || hd.remote != it.sgl {
        return None;
      }
      HeldFacts(buf.Abs(), rs, i, |hdls| - 1);
      assert hd.inuse > 0 && hd.bulkOff == 0 && 0 < hd.used <= HdlLen(buf.Abs(), h);
      if hd.used + it.ext.len > HdlLen(buf.Abs(), h) {
        return None;
      }
      buf.hdls := buf.hdls[h := hd.(inuse := hd.inuse + 1)];
      return prev;
    }

    /** The part of `bulk_get_hdl` that takes an unused handle. */
    method NewHandle(it: Item, pgs: nat, ghost rs: seq<Rsrvd>) returns (rc: Rc, h: HdlRef)
      requires Inv(buf.Abs(), rs) && 0 < pgs <= buf.cfg.chkSz
      modifies this`retry, buf
      ensures var (c, q, g) := FindIdle(old(buf.Abs()), pgs, it.memOk, it.regOk);
              && rc == c && retry == (old(retry) || rc == Again)
              && if rc != Ok then buf.Abs() == q && h == HdlRef(0, 0)
                 else Grp(q, g).idleHdls != [] && h == Grp(q, g).idleHdls[0] && buf.Abs() == Hold(q, h, it.sgl, it.ext)
      ensures rc == Ok ==> MayUse(buf.Abs(), h, it.ext)
    {
      FindIdleInv(buf.Abs(), rs, pgs, it.memOk, it.regOk);
      var g;
      rc, g := buf.FindIdleGroup(pgs, it.memOk, it.regOk, rs);
      if rc != Ok {
        retry := retry || rc == Again;
        return rc, HdlRef(0, 0);
      }
      assert buf.grps[g].idleHdls != [];
      h := buf.grps[g].idleHdls[0];
      OnIdleList(buf.Abs(), rs, g, h);
      HoldUsable(buf.Abs(), g, h, it);
      buf.HoldHdl(h, it.sgl, it.ext);
    }

    /** `bulk_get_hdl` */
    method GetHandle(it: Item, ghost rs: seq<Rsrvd>, ghost i: nat) returns (rc: Rc, h: HdlRef)
      requires Inv(buf.Abs(), rs) && i < |rs| && rs[i] == Abs()
      requires it.ext.len > 0 && it.ext.PgCnt() <= buf.cfg.chkSz
      modifies this`retry, buf
      ensures (rc, buf.Abs(), h) == GetHdl(old(buf.Abs()), Abs(), it)
      ensures rc == Ok ==> MayUse(buf.Abs(), h, it.ext)
      ensures retry == (old(retry) || rc == Again)
    {
      var oh := SharedHandle(it, rs, i);
      if oh.Some? {
        return Ok, oh.value;
      }
      ExtentFitsPages(it.ext);
      RoundUpSpec(buf.cfg.chkSz, it.ext.PgCnt());
      rc, h := NewHandle(it, RoundUpPgs(buf.cfg.chkSz, it.ext.PgCnt()), rs);
    }

    /** The end of `bulk_map_one`. */
    method UseHandle(h: HdlRef, e: Extent) returns (b: Buf)
      requires MayUse(buf.Abs(), h, e)
      modifies this`regions, this`hdls, buf`hdls
      ensures MapRes(Ok, buf.Abs(), Abs(), b) == UseHdl(old(buf.Abs()), old(Abs()), h, e)
    {
      var hd := HdlIn(buf.hdls, h);
      b := Dma(h.chk, hd.pgIdx * 4096 + (if hd.shareable then hd.used else e.PgOff()));
      regions := regions + [Region(h.chk, hd.pgIdx, hd.used, e.off, e.End(), e.media, Some(h), e.PgOff() + e.prefix)];
      if hd.shareable {
        assert hd.bulkOff == 0;
        buf.hdls := buf.hdls[h := hd.(used := hd.used + e.len)];
      }
      hdls := hdls + [Some(h)];
    }

    /** `bulk_map_one` */
    method BulkMapExtent(it: Item, ghost rs: seq<Rsrvd>, ghost i: nat) returns (rc: Rc, b: Buf)
      requires Inv(buf.Abs(), rs) && i < |rs| && rs[i] == Abs() && kind.bulk && ItemOk(it) && |hdls| < bulkMax
      modifies this, buf
      ensures MapRes(rc, buf.Abs(), Abs(), b) == BulkMapOne(old(buf.Abs()), old(Abs()), it)
      ensures retry == (old(retry) || rc == Again) && places == old(places) && prep == old(prep)
              && bulkMax == old(bulkMax)
    {
      var e := it.ext;
      BulkKind(buf.Abs(), rs, i);
      assert kind.rdma && kind.ctype == Io;
      if e.len - (e.prefix + e.suffix) == 0 {
        hdls := hdls + [None];
        return Ok, Null;
      }
      if Bypass(buf.cfg, kind, e) {
        BypassCases(buf.cfg, kind, e);
        rc, b := MapExtent(e, it.memOk, rs, i);
        assert |hdls| < bulkMax;
        hdls := hdls + [None];
        return;
      }
      var h;
      rc, h := GetHandle(it, rs, i);
      if rc != Ok {
        return rc, Null;
      }
      b := UseHandle(h, e);
    }

    // -------------------------------------------------------------------------------------------
    // All extents
    // -------------------------------------------------------------------------------------------

    /** `dma_map_one` or `bulk_map_one` */
    method MapAny(it: Item, ghost rs: seq<Rsrvd>, ghost i: nat) returns (rc: Rc, b: Buf)
      requires Inv(buf.Abs(), rs) && i < |rs| && rs[i] == Abs() && TipOk(buf.Abs(), Abs()) && ItemOk(it)
      requires kind.bulk ==> |hdls| < bulkMax
      modifies this, buf
      ensures MapRes(rc, buf.Abs(), Abs(), b) == MapItem(old(buf.Abs()), old(Abs()), it)
      ensures retry == (old(retry) || rc == Again) && places == old(places) && prep == old(prep)
      ensures bulkMax == old(bulkMax)
    {
      if kind.bulk {
        rc, b := BulkMapExtent(it, rs, i);
      } else {
        rc, b := MapExtent(it.ext, it.memOk, rs, i);
      }
    }

    /** One call of the mapping callback. */
    method MapOneItem(it: Item, ghost rs: seq<Rsrvd>, ghost i: nat) returns (rc: Rc)
      requires Inv(buf.Abs(), rs) && i < |rs| && rs[i] == Abs() && TipOk(buf.Abs(), Abs()) && ItemOk(it)
      requires kind.bulk ==> |hdls| < bulkMax
      modifies this, buf
      ensures Res(rc) == MapNext(old(Res(Ok)), it)
      ensures retry == (old(retry) || rc == Again) && prep == old(prep) && bulkMax == old(bulkMax)
    {
      var b;
      rc, b := MapAny(it, rs, i);
      if rc == Ok {
        places := places + [Place(it.ext, b, |regions| - 1)];
      }
    }

    function Res(rc: Rc): MapAllRes
      reads this, buf
    {
      MapAllRes(rc, buf.Abs(), Abs(), places)
    }

    /** Extent m, after those before it were mapped. */
    method MapNextItem(it: Item, ghost p: Pool, ghost all: seq<Item>, ghost m: nat, ghost rs: seq<Rsrvd>, ghost n: nat)
      returns (rc: Rc, ghost k: nat)
      requires m < |all| && all[m] == it && Along(Res(Ok), p, kind, all, m)
      requires Inv(p, rs) && n < |rs| && rs[n] == Empty(kind) && forall k :: 0 <= k < |all| ==> ItemOk(all[k])
      requires kind.bulk ==> bulkMax == |all|
      modifies this, buf
      ensures k == m + 1 && Along(Res(rc), p, kind, all, k) && retry == (old(retry) || rc == Again) && prep == old(prep)
      ensures bulkMax == old(bulkMax)
    {
      AlongKeeps(Res(Ok), p, rs, n, all, m);
      AlongNext(Res(Ok), p, kind, all, m);
      rc := MapOneItem(it, rs[n := Abs()], n);
      k := m + 1;
    }

    /** The inner loop of `iterate_biov`: the extents of one list, which start at index m of all. */
    method MapList(bsgl: seq<Item>, ghost p: Pool, ghost all: seq<Item>, ghost m: nat, ghost rs: seq<Rsrvd>,
                   ghost n: nat)
      returns (rc: Rc, ghost k: nat)
      requires m + |bsgl| <= |all| && (forall j :: 0 <= j < |bsgl| ==> all[m + j] == bsgl[j])
               && Along(Res(Ok), p, kind, all, m)
      requires Inv(p, rs) && n < |rs| && rs[n] == Empty(kind) && forall k :: 0 <= k < |all| ==> ItemOk(all[k])
      requires kind.bulk ==> bulkMax == |all|
      modifies this, buf
      ensures bulkMax == old(bulkMax)
      ensures k == (if rc == Ok then m + |bsgl| else |all|) && Along(Res(rc), p, kind, all, k)
      ensures retry == (old(retry) || rc == Again) && prep == old(prep)
    {
      rc, k := Ok, m;
      var j := 0;
      while j < |bsgl|
        invariant 0 <= j <= |bsgl| && k == m + j && rc == Ok && Along(Res(Ok), p, kind, all, k)
        invariant retry == old(retry) && prep == old(prep) && bulkMax == old(bulkMax)
      {
        rc, k := MapNextItem(bsgl[j], p, all, k, rs, n);
        if rc != Ok {
          AlongStops(Res(rc), p, kind, all, k, |all|);
          k := |all|;
          return;
        }
        j := j + 1;
      }
    }

    /** The count of `bulk_iod_init`, which the first call of `bulk_map_one` makes. */
    method CountExtents(sgls: seq<seq<Item>>)
      modifies this`bulkMax
      ensures bulkMax == Start(sgls, |sgls|)
    {
      bulkMax := 0;
      var i := 0;
      while i < |sgls|
        invariant 0 <= i <= |sgls| && bulkMax == Start(sgls, i)
      {
        bulkMax := bulkMax + |sgls[i]|;
        i := i + 1;
      }
    }

    /** `iterate_biov` with `dma_map_one` or `bulk_map_one`: all lists in order, up to the first failure. */
    method MapLists(sgls: seq<seq<Item>>, ghost rs: seq<Rsrvd>, ghost n: nat) returns (rc: Rc)
      requires Inv(buf.Abs(), rs) && n < |rs| && rs[n] == Abs() == Empty(kind) && places == []
      requires forall k :: 0 <= k < |Flatten(sgls)| ==> ItemOk(Flatten(sgls)[k])
      modifies this, buf
      ensures Res(rc) == MapAll(old(buf.Abs()), old(Abs()), Flatten(sgls))
      ensures retry == (old(retry) || rc == Again) && prep == old(prep)
    {
      ghost var p, all, k := buf.Abs(), Flatten(sgls), 0;
      AlongStart(p, kind, all);
      FlattenLen(sgls);
      if kind.bulk {
        CountExtents(sgls);
      }
      rc := Ok;
      var i := 0;
      while i < |sgls|
        invariant 0 <= i <= |sgls| && k == Start(sgls, i) && rc == Ok && Along(Res(Ok), p, kind, all, k)
        invariant retry == old(retry) && prep == old(prep) && (kind.bulk ==> bulkMax == |all|)
      {
        FlattenList(sgls, i);
        rc, k := MapList(sgls[i], p, all, k, rs, n);
        if rc != Ok {
          AlongEnds(Res(rc), p, kind, all, k);
          return;
        }
        i := i + 1;
      }
      AlongEnds(Res(rc), p, kind, all, k);
    }

    // -------------------------------------------------------------------------------------------
    // Release
    // -------------------------------------------------------------------------------------------

    /** The loop of `bulk_iod_release`. */
    method ReleaseHandles(ghost rs: seq<Rsrvd>, ghost i: nat)
      requires Inv(buf.Abs(), rs) && i < |rs| && rs[i] == Abs()
      modifies this`hdls, buf`heap, buf`hdls, buf`grps
      ensures buf.Abs() == UnholdAll(old(buf.Abs()), old(hdls)) && hdls == []
      ensures Inv(buf.Abs(), rs[i := Forget(rs[i]).(hdls := [])])
    {
      ghost var p, hs := buf.Abs(), hdls;
      if kind.bulk {
        BulkKind(p, rs, i);
        assert kind.ctype == Io;
      }
      ForgetInv(p, rs, i);
      ghost var rt := rs[i := Forget(rs[i])];
      var k := 0;
      assert hs[0..] == hs;
      while k < |hdls|
        invariant 0 <= k <= |hdls| && hdls == hs && |rt| == |rs|
        invariant rt == rs[i := Forget(rs[i]).(hdls := hs[k..])] && Inv(buf.Abs(), rt)
        invariant UnholdAll(buf.Abs(), hs[k..]) == UnholdAll(p, hs)
      {
        assert rt[i].hdls == hs[k..] && hs[k..][1..] == hs[k + 1..];
        UnholdOneInv(buf.Abs(), rt, i);
        if hdls[k].Some? {
          HeldFacts(buf.Abs(), rt, i, 0);
          buf.UnholdHdl(hdls[k].value);
        }
        rt := rt[i := PopHdl(rt[i])];
        k := k + 1;
      }
      hdls := [];
    }

    /** The last reference of a pooled chunk is gone. */
    method IdleChunk(c: ChunkId)
      requires c in buf.heap && buf.heap[c].refs == 1 && !buf.heap[c].loc.Unlinked?
      requires CntOf(buf.usedCnt, buf.heap[c].ctype) > 0
      modifies buf
      ensures buf.Abs() == DropRef(old(buf.Abs()), c)
    {
      var chk := buf.heap[c].(refs := 0, pgIdx := 0, loc := OnIdle);
      var cnt := CntOf(buf.usedCnt, chk.ctype);
      if chk.ctype in buf.cur && buf.cur[chk.ctype] == c {
        buf.cur := buf.cur - {chk.ctype};
      }
      buf.usedCnt, buf.used, buf.idle, buf.heap :=
        buf.usedCnt[chk.ctype := cnt - 1], Remove<nat>(buf.used, c), buf.idle + [c], buf.heap[c := chk];
    }

    /** One round of the loop of `iod_release_buffer`. */
    method ReleaseChunk(c: ChunkId)
      requires c in buf.heap && buf.heap[c].refs > 0 && buf.heap[c].ctype == kind.ctype && buf.heap[c].grp.None?
      requires !buf.heap[c].loc.Unlinked? && buf.heap[c].refs == 1 ==> CntOf(buf.usedCnt, buf.heap[c].ctype) > 0
      requires buf.heap[c].loc.Unlinked? ==> buf.heap[c].refs == 1 && buf.heap[c].pgIdx == 0
      modifies buf
      ensures buf.Abs() == DropRef(old(buf.Abs()), c)
    {
      var chk := buf.heap[c];
      if chk.loc.Unlinked? {
        buf.heap := buf.heap - {c};
      } else if chk.refs == 1 {
        IdleChunk(c);
      } else {
        buf.heap := buf.heap[c := chk.(refs := chk.refs - 1)];
      }
    }

    /** The loop of `iod_release_buffer`. */
    method ReleaseChunks(ghost rs: seq<Rsrvd>, ghost i: nat)
      requires Inv(buf.Abs(), rs) && i < |rs| && rs[i] == Abs() && regions == []
      modifies this`chks, buf
      ensures buf.Abs() == DropRefs(old(buf.Abs()), old(chks)) && chks == []
    {
      ghost var p, cs := buf.Abs(), chks;
      ghost var rt := rs;
      var k := 0;
      assert cs[0..] == cs && rs == rs[i := rs[i].(chks := cs[0..])];
      while k < |chks|
        invariant 0 <= k <= |chks| && chks == cs && |rt| == |rs|
        invariant rt == rs[i := rs[i].(chks := cs[k..])] && Inv(buf.Abs(), rt)
        invariant DropRefs(buf.Abs(), cs[k..]) == DropRefs(p, cs)
      {
        assert rt[i].chks == cs[k..] && cs[k..][1..] == cs[k + 1..];
        DropRefInv(buf.Abs(), rt, i);
        ChunkHeld(buf.Abs(), rt, i);
        ReleaseChunk(chks[k]);
        rt := rt[i := Pop(rt[i])];
        k := k + 1;
      }
      chks := [];
    }

    /** `iod_release_buffer` */
    method ReleaseBuffer(ghost rs: seq<Rsrvd>, ghost i: nat)
      requires Inv(buf.Abs(), rs) && i < |rs| && rs[i] == Abs() && Backed(Abs())
      modifies this, buf
      ensures buf.Abs() == Release(old(buf.Abs()), old(Abs())) && Abs() == Empty(kind) && !prep && places == []
      ensures Inv(buf.Abs(), rs[i := Empty(kind)]) && retry == old(retry)
    {
      ReleaseInv(buf.Abs(), rs, i);
      ReleaseHandles(rs, i);
      places := [];
      prep := false;
      if regions == [] {
        assert chks == [];
        return;
      }
      regions := [];
      ReleaseChunks(rs[i := Abs()], i);
    }

    /** One round of `iod_map_iovs`: everything is mapped, or nothing is held afterwards; `again` tells whether it is
        worth waiting for other descriptors. */
    method TryMap(sgls: seq<seq<Item>>, ghost rs: seq<Rsrvd>, ghost n: nat) returns (rc: Rc, again: bool)
      requires Inv(buf.Abs(), rs) && n < |rs| && rs[n] == Abs() == Empty(kind) && places == [] && !retry && !prep
      requires forall k :: 0 <= k < |Flatten(sgls)| ==> ItemOk(Flatten(sgls)[k])
      modifies this, buf
      ensures var r := MapAll(old(buf.Abs()), Empty(kind), Flatten(sgls));
              && rc == r.rc && (again <==> rc == Again) && !retry
              && if rc == Ok then prep && buf.Abs() == r.pool && Abs() == r.d && places == r.places
                 else !prep && buf.Abs() == Release(r.pool, r.d) && Abs() == Empty(kind) && places == []
      ensures Inv(buf.Abs(), rs[n := Abs()])
    {
      MapAllKeeps(buf.Abs(), rs, n, Flatten(sgls));
      rc := MapLists(sgls, rs, n);
      ghost var rt := rs[n := Abs()];
      again := retry;
      if rc != Ok {
        ReleaseBuffer(rt, n);
        assert rt[n := Empty(kind)] == rs[n := Empty(kind)];
        retry := false;
        return;
      }
      prep := true;
    }
  }

  /** List s among all extents. */
  lemma FlattenList(sgls: seq<seq<Item>>, s: nat)
    requires s < |sgls|
    ensures Start(sgls, s) + |sgls[s]| <= |Flatten(sgls)|
    ensures forall j :: 0 <= j < |sgls[s]| ==> Flatten(sgls)[Start(sgls, s) + j] == sgls[s][j]
  {
    FlattenLen(sgls);
    StartMono(sgls, s + 1, |sgls|);
    forall j | 0 <= j < |sgls[s]| ensures Flatten(sgls)[Start(sgls, s) + j] == sgls[s][j] {
      FlattenAt(sgls, s, j);
    }
  }

  lemma {:induction false} StartMono(sgls: seq<seq<Item>>, s: nat, t: nat)
    requires s <= t <= |sgls|
    ensures Start(sgls, s) <= Start(sgls, t)
  {
    if s < t {
      StartMono(sgls, s, t - 1);
    }
  }

  lemma MapAllKeeps(p: Pool, rs: seq<Rsrvd>, i: nat, items: seq<Item>)
    requires Inv(p, rs) && i < |rs| && rs[i] == Empty(rs[i].kind)
    requires forall k :: 0 <= k < |items| ==> ItemOk(items[k])
    ensures var r := MapAll(p, rs[i], items);
            Inv(r.pool, rs[i := r.d]) && Backed(r.d) && r.d.kind == rs[i].kind
  {
    MapAllInv(p, rs, i, items);
  }

  /** r is the result of mapping the first m of all extents, starting from buffer p; folded. */
  ghost predicate Along(r: MapAllRes, p: Pool, k: Kind, all: seq<Item>, m: nat) {
    m <= |all| && forall x {:trigger Look(x)} :: Look(x) ==> r == MapAll(p, Empty(k), all[..m])
  }

  lemma AlongStart(p: Pool, k: Kind, all: seq<Item>)
    ensures Along(MapAllRes(Ok, p, Empty(k), []), p, k, all, 0)
  {
    assert all[..0] == [];
  }

  lemma AlongKeeps(r: MapAllRes, p: Pool, rs: seq<Rsrvd>, i: nat, all: seq<Item>, m: nat)
    requires Inv(p, rs) && i < |rs| && rs[i] == Empty(rs[i].kind) && Along(r, p, rs[i].kind, all, m) && r.rc == Ok
    requires forall k :: 0 <= k < |all| ==> ItemOk(all[k])
    ensures Inv(r.pool, rs[i := r.d]) && TipOk(r.pool, r.d) && (r.d.kind.bulk ==> |r.d.hdls| == m)
  {
    assert Look(0);
    MapAllInv(p, rs, i, all[..m]);
  }

  lemma AlongNext(r: MapAllRes, p: Pool, k: Kind, all: seq<Item>, m: nat)
    requires Along(r, p, k, all, m) && r.rc == Ok && m < |all|
    ensures Along(MapNext(r, all[m]), p, k, all, m + 1)
  {
    assert Look(0);
    MapAllSnoc(p, Empty(k), all, m);
  }

  lemma AlongStops(r: MapAllRes, p: Pool, k: Kind, all: seq<Item>, m: nat, n: nat)
    requires Along(r, p, k, all, m) && r.rc != Ok && n == |all|
    ensures Along(r, p, k, all, n)
  {
    assert Look(0);
    MapAllStops(p, Empty(k), all, m);
    assert all[..n] == all;
  }

  lemma AlongEnds(r: MapAllRes, p: Pool, k: Kind, all: seq<Item>, m: nat)
    requires Along(r, p, k, all, m) && m == |all|
    ensures r == MapAll(p, Empty(k), all)
  {
    assert Look(0);
    assert all[..m] == all;
  }

  /** One more extent. */
  lemma MapAllSnoc(p: Pool, d: Rsrvd, all: seq<Item>, m: nat)
    requires m < |all| && MapAll(p, d, all[..m]).rc == Ok
    ensures MapAll(p, d, all[..m + 1]) == MapNext(MapAll(p, d, all[..m]), all[m])
  {
    assert all[..m + 1][..m] == all[..m];
  }

  /** A failure ends the mapping. */
  lemma {:induction false} MapAllStops(p: Pool, d: Rsrvd, all: seq<Item>, m: nat)
    requires m <= |all| && MapAll(p, d, all[..m]).rc != Ok
    ensures MapAll(p, d, all) == MapAll(p, d, all[..m])
    decreases |all|
  {
    if m < |all| {
      var n := |all| - 1;
      assert all[..n][..m] == all[..m];
      MapAllStops(p, d, all[..n], m);
    } else {
      assert all[..m] == all;
    }
  }

  /** What `iod_release_buffer` asserts about a chunk. */
  lemma ChunkHeld(p: Pool, rs: seq<Rsrvd>, i: nat)
    requires Core(p, rs) && i < |rs| && rs[i].chks != []
    ensures var c := rs[i].chks[0];
            && c in p.heap && p.heap[c].refs > 0 && p.heap[c].ctype == rs[i].kind.ctype && p.heap[c].grp.None?
            && (!p.heap[c].loc.Unlinked? ==> CntOf(p.usedCnt, p.heap[c].ctype) > 0)
            && (p.heap[c].loc.Unlinked? ==> p.heap[c].refs == 1 && p.heap[c].pgIdx == 0)
  {
    Open(p, rs);
    var c := rs[i].chks[0];
    assert c in rs[i].chks && HoldsChk(p, rs[i], c) && ChunkOk(p, p.heap[c]);
    OccHeld(rs, i, c);
    if p.heap[c].loc.OnUsed? {
      assert c in UsedOf(p, p.heap[c].ctype);
    }
  }

  /** What is known about a handle a descriptor holds. */
  lemma HeldFacts(p: Pool, rs: seq<Rsrvd>, i: nat, k: nat)
    requires Core(p, rs) && i < |rs| && k < |rs[i].hdls| && rs[i].hdls[k].Some?
    ensures var h := rs[i].hdls[k].value;
            && Hd(p, h).inuse > 0 && HdlOk(p, h) && Chk(p, h.chk).grp.Some? && Chk(p, h.chk).grp.value < |p.grps|
            && Chk(p, h.chk).bulkIdle < Chk(p, h.chk).bulkCnt && h !in p.grps[Chk(p, h.chk).grp.value].idleHdls
  {
    Open(p, rs);
    var h := rs[i].hdls[k].value;
    assert Some(h) in rs[i].hdls;
    HeldLive(p, rs, i, h);
    assert HdlOk(p, h) && ChunkOk(p, p.heap[h.chk]);
    HeldNotIdle(p, h);
    assert !IdleIn(p, Chk(p, h.chk).grp.value, h);
  }

  /** A chunk with a held handle has fewer idle handles than handles. */
  lemma HeldNotIdle(p: Pool, h: HdlRef)
    requires IdleCounts(p) && Live(p, h) && Hd(p, h).inuse > 0
    ensures Chk(p, h.chk).bulkIdle < Chk(p, h.chk).bulkCnt
  {
    var all := Below(Chk(p, h.chk).bulkCnt);
    assert h == HdlRef(h.chk, h.idx) && h.idx in all && h.idx !in IdleIdx(p, h.chk);
    SubsetSize(IdleIdx(p, h.chk), all);
  }
}
