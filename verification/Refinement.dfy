/** The region-level I/O of a descriptor means the same as one private buffer and one transfer per extent: whatever the
    extents are and however they were merged, padded, put into huge chunks or handles, and split into transfers. */
module Refinement {
  import opened BioTypes
  import opened Folding
  import opened SeqLib
  import opened Pool
  import opened PoolInv
  import opened MapProofs
  import opened Mapping
  import opened MapRun
  import opened ReleaseRun
  import opened Transfer
  import opened Copy

  /** Byte j of an extent's buffer. */
  ghost function Get(w: World, b: Buf, j: nat): Byte {
    match b
    case Null => 0
    case Direct(scm) => w.scm(scm + j)
    case Dma(chk, off) => w.dma(chk, off + j)
  }

  /** A descriptor that has mapped its extents. */
  ghost predicate Prepared(p: Pool, rs: seq<Rsrvd>, i: nat, items: seq<Item>, places: seq<Place>) {
    && Inv(p, rs) && i < |rs| && |places| == |items|
    && forall x {:trigger Look(x)} :: Look(x) ==> Complete(p.cfg, rs[i], items, places)
  }

  lemma OpenPrepared(p: Pool, rs: seq<Rsrvd>, i: nat, items: seq<Item>, places: seq<Place>)
    requires Prepared(p, rs, i, items, places)
    ensures Complete(p.cfg, rs[i], items, places)
  {
    assert Look(0);
  }

  lemma PlaceAt(p: Pool, rs: seq<Rsrvd>, i: nat, items: seq<Item>, places: seq<Place>, k: nat)
    requires Prepared(p, rs, i, items, places) && k < |items|
    ensures PlaceOk(p.cfg, rs[i], items[k], places[k])
  {
    OpenPrepared(p, rs, i, items, places);
  }

  lemma PreparedFacts(p: Pool, rs: seq<Rsrvd>, i: nat, items: seq<Item>, places: seq<Place>)
    requires Prepared(p, rs, i, items, places)
    ensures 0 < p.cfg.chkSz && Wfs(rs[i].regions) && MemDisjoint(rs[i].regions)
  {
    assert p.cfg.Valid() by { Open(p, rs); }
    RegionsWf(p, rs, i);
    forall g, k | 0 <= g < k < |rs[i].regions| ensures Disjoint(rs[i].regions[g], rs[i].regions[k]) {
      BytesDisjoint(p, rs, i, g, i, k);
    }
  }

  /** What `scm_rw` asserts: SCM goes through DMA memory only for RDMA and only if SCM itself is not used for it. */
  lemma ScmCopied(p: Pool, rs: seq<Rsrvd>, i: nat, items: seq<Item>, places: seq<Place>, g: nat)
    requires Prepared(p, rs, i, items, places) && g < |rs[i].regions| && rs[i].regions[g].media.Scm?
    requires !rs[i].kind.iod.GetBuf?
    ensures rs[i].kind.rdma && !p.cfg.scmRdma
  {
    OpenPrepared(p, rs, i, items, places);
    assert Owned(rs[i].regions[g], g, places);
    var k :| 0 <= k < |places| && OwnsRange(places[k], g, rs[i].regions[g]);
    PlaceAt(p, rs, i, items, places, k);
  }

  /** A successful mapping leaves the descriptor prepared. */
  lemma MappedPrepared(p: Pool, rs: seq<Rsrvd>, i: nat, items: seq<Item>)
    requires Inv(p, rs) && i < |rs| && rs[i] == Empty(rs[i].kind)
    requires forall k :: 0 <= k < |items| ==> ItemOk(items[k])
    requires MapAll(p, rs[i], items).rc == Ok
    ensures var r := MapAll(p, rs[i], items);
            Prepared(r.pool, rs[i := r.d], i, items, r.places)
  {
    MapAllInv(p, rs, i, items);
  }

  /** The byte of the region that byte j of a covered extent's buffer is, seen from memory and from the medium. */
  lemma BufferByte(r: Region, e: Extent, b: Buf, j: nat)
    requires r.Wf() && Covers(r, e, b) && j < e.len
    ensures InMem(r, r.chk, b.off + j) && DevLo(r) + (b.off + j - r.Lo()) == e.off + j
  {
  }

  // ---------------------------------------------------------------------------------------------
  // Fetch
  // ---------------------------------------------------------------------------------------------

  lemma FetchCovered(chkSz: nat, regions: seq<Region>, w: World, es: seq<Event>, g: nat, e: Extent, b: Buf, j: nat)
    requires 0 < chkSz && Wfs(regions) && MemDisjoint(regions)
    requires Fair(chkSz, false, w, es, regions) && Finished(chkSz, es, regions)
    requires g < |regions| && Covers(regions[g], e, b) && j < e.len
    ensures Get(Run(false, w, es), b, j) == w.Dev(e.media, e.off + j)
  {
    var x := b.off + j;
    BufferByte(regions[g], e, b, j);
    FetchByte(chkSz, w, es, regions, g, x);
    FinishedHits(chkSz, es, regions, g, x);
  }

  /** Once all reads are done, the raw buffer of every extent that is not a hole holds the bytes [off, end) of its
      medium; an extent that is accessed in place is its own buffer.  The reads may be carried out in any order and
      between any steps of others that leave this descriptor's memory and media alone. */
  lemma FetchRefines(p: Pool, rs: seq<Rsrvd>, i: nat, items: seq<Item>, places: seq<Place>, w: World, es: seq<Event>,
                     k: nat, j: nat)
    requires Prepared(p, rs, i, items, places)
    requires Fair(p.cfg.chkSz, false, w, es, rs[i].regions) && Finished(p.cfg.chkSz, es, rs[i].regions)
    requires k < |items| && !items[k].ext.hole && j < items[k].ext.len
    ensures var e := items[k].ext;
            match places[k].buf
            case Null => false
            case Direct(scm) => e.media.Scm? && scm == e.off
            case Dma(_, _) => Get(Run(false, w, es), places[k].buf, j) == w.Dev(e.media, e.off + j)
  {
    PreparedFacts(p, rs, i, items, places);
    PlaceAt(p, rs, i, items, places, k);
    if places[k].buf.Dma? {
      FetchCovered(p.cfg.chkSz, rs[i].regions, w, es, places[k].rg, items[k].ext, places[k].buf, j);
    }
  }

  /** A transfer of another descriptor, completed or not, leaves this one's memory alone, and its media too unless it
      writes the same part of a medium. */
  lemma OthersLeave(p: Pool, rs: seq<Rsrvd>, i: nat, o: nat, write: bool, v: World, after: World, op: Op)
    requires Scribbles(write, v, after, op)
    requires Inv(p, rs) && i < |rs| && o < |rs| && o != i && op in AllOps(p.cfg.chkSz, rs[o].regions)
    requires write ==> forall g, k :: 0 <= g < |rs[i].regions| && 0 <= k < |rs[o].regions| ==>
                                        DevApart(rs[i].regions[g], rs[o].regions[k])
    ensures Leaves(v, after, rs[i].regions)
  {
    RegionsWf(p, rs, o);
    assert p.cfg.Valid() by { Open(p, rs); }
    var k := OwnerOf(p.cfg.chkSz, rs[o].regions, op);
    forall g, c, x | 0 <= g < |rs[i].regions| && InMem(rs[i].regions[g], c, x)
      ensures after.dma(c, x) == v.dma(c, x)
    {
      BytesDisjoint(p, rs, i, g, o, k);
    }
    forall g, m, a | 0 <= g < |rs[i].regions| && InDev(rs[i].regions[g], m, a)
      ensures after.Dev(m, a) == v.Dev(m, a)
    {
      if write {
        assert DevApart(rs[i].regions[g], rs[o].regions[k]);
      }
    }
  }

  // ---------------------------------------------------------------------------------------------
  // Update
  // ---------------------------------------------------------------------------------------------

  /** Byte a of medium m belongs to the extent: to its range in SCM, or to its pages on NVMe. */
  predicate InExt(e: Extent, m: Media, a: nat) {
    && m == e.media
    && if m.Scm? then e.off <= a < e.End() else FloorPg(e.off) <= FloorPg(a) < CeilPg(e.End())
  }

  predicate Real(e: Extent) {
    !e.hole && e.len > 0
  }

  predicate ExtApart(e: Extent, f: Extent) {
    Real(e) && Real(f) && e.media == f.media ==>
      if e.media.Scm? then e.End() <= f.off || f.End() <= e.off
      else CeilPg(e.End()) <= FloorPg(f.off) || CeilPg(f.End()) <= FloorPg(e.off)
  }

  /** The extents share no SCM byte and no NVMe page. */
  ghost predicate NoOverlap(items: seq<Item>) {
    forall k, l :: 0 <= k < |items| && 0 <= l < |items| && k != l ==> ExtApart(items[k].ext, items[l].ext)
  }

  lemma ApartBytes(e: Extent, f: Extent, m: Media, a: nat)
    requires ExtApart(e, f) && Real(e) && Real(f) && InExt(e, m, a)
    ensures !InExt(f, m, a)
  {
  }

  /** The extent for which a region exchanges byte a of its medium. */
  lemma OwnerOfByte(r: Region, g: nat, places: seq<Place>, a: nat) returns (k: nat)
    requires Owned(r, g, places) && r.Wf() && InDev(r, r.media, a)
    ensures k < |places| && places[k].buf.Dma? && places[k].rg == g && InExt(places[k].ext, r.media, a)
  {
    if r.media.Scm? {
      k :| 0 <= k < |places| && OwnsRange(places[k], g, r);
    } else {
      assert Page(FloorPg(a));
      k :| 0 <= k < |places| && OwnsPage(places[k], g, FloorPg(a));
    }
  }

  /** With extents that do not overlap, no two regions exchange the same byte of a medium. */
  lemma RegionsApart(cfg: Config, d: Rsrvd, items: seq<Item>, places: seq<Place>, g: nat, k: nat)
    requires Complete(cfg, d, items, places) && NoOverlap(items) && Wfs(d.regions) && g < k < |d.regions|
    ensures DevApart(d.regions[g], d.regions[k])
  {
    var r, q := d.regions[g], d.regions[k];
    if !DevApart(r, q) {
      var a := if DevLo(r) < DevLo(q) then DevLo(q) else DevLo(r);
      assert InDev(r, r.media, a) && InDev(q, r.media, a);
      var n := OwnerOfByte(r, g, places, a);
      var l := OwnerOfByte(q, k, places, a);
      assert PlaceOk(cfg, d, items[n], places[n]) && PlaceOk(cfg, d, items[l], places[l]);
      ApartBytes(items[n].ext, items[l].ext, r.media, a);
    }
  }

  /** The buffer of place pl, and what the copy puts into its request part. */
  ghost function Fill(w: World, pl: Place, bytes: seq<Byte>): World {
    match pl.buf
    case Null => w
    case Direct(scm) =>
      var lo := scm + pl.ext.prefix;
      w.(scm := (a: nat) => if lo <= a < lo + |bytes| then bytes[a - lo] else w.scm(a))
    case Dma(chk, off) =>
      var lo := off + pl.ext.prefix;
      w.(dma := (c: ChunkId, x: nat) => if c == chk && lo <= x < lo + |bytes| then bytes[x - lo] else w.dma(c, x))
  }

  /** The request bytes of the first n extents are copied into their buffers. */
  ghost function CopyIn(w: World, places: seq<Place>, data: seq<seq<Byte>>, n: nat): World
    requires n <= |places| && n <= |data|
  {
    if n == 0 then w else Fill(CopyIn(w, places, data, n - 1), places[n - 1], data[n - 1])
  }

  /** Each extent gets as many bytes as it requests. */
  ghost predicate Fit(places: seq<Place>, data: seq<seq<Byte>>) {
    |data| == |places| && forall k :: 0 <= k < |places| ==> places[k].ext.Valid() && |data[k]| == places[k].ext.ReqLen()
  }

  predicate BufApart(pl: Place, ql: Place) {
    match (pl.buf, ql.buf)
    case (Dma(c, x), Dma(d, y)) => c == d ==> x + pl.ext.len <= y || y + ql.ext.len <= x
    case (Direct(a), Direct(b)) => a + pl.ext.len <= b || b + ql.ext.len <= a
    case _ => true
  }

  /** Buffers of extents that do not overlap do not overlap. */
  lemma BuffersApart(p: Pool, rs: seq<Rsrvd>, i: nat, items: seq<Item>, places: seq<Place>, k: nat, l: nat)
    requires Prepared(p, rs, i, items, places) && NoOverlap(items) && k < |items| && l < |items| && k != l
    ensures BufApart(places[k], places[l])
  {
    var d := rs[i];
    var e, f := items[k].ext, items[l].ext;
    PlaceAt(p, rs, i, items, places, k);
    PlaceAt(p, rs, i, items, places, l);
    assert ExtApart(e, f);
    if places[k].buf.Dma? && places[l].buf.Dma? {
      RegionsWf(p, rs, i);
      var g, h := places[k].rg, places[l].rg;
      if g != h {
        BytesDisjoint(p, rs, i, g, i, h);
      }
      BuffersIn(d.regions[g], e, places[k].buf, d.regions[h], f, places[l].buf, g == h);
    }
  }

  lemma BuffersIn(r: Region, e: Extent, b: Buf, q: Region, f: Extent, c: Buf, same: bool)
    requires r.Wf() && q.Wf() && Real(e) && Real(f) && Covers(r, e, b) && Covers(q, f, c)
    requires if same then r == q && ExtApart(e, f) else Disjoint(r, q)
    ensures b.chk == c.chk ==> b.off + e.len <= c.off || c.off + f.len <= b.off
  {
    BufferByte(r, e, b, 0);
    BufferByte(r, e, b, e.len - 1);
    BufferByte(q, f, c, 0);
    BufferByte(q, f, c, f.len - 1);
  }

  /** After the copy every buffer holds its own bytes. */
  lemma {:induction false} CopyInByte(w: World, places: seq<Place>, data: seq<seq<Byte>>, n: nat, k: nat, j: nat)
    requires Fit(places, data) && k < n <= |places| && j < |data[k]| && !places[k].buf.Null?
    requires forall l :: 0 <= l < |places| && l != k ==> BufApart(places[k], places[l])
    ensures Get(CopyIn(w, places, data, n), places[k].buf, places[k].ext.prefix + j) == data[k][j]
  {
    if k < n - 1 {
      CopyInByte(w, places, data, n - 1, k, j);
      assert BufApart(places[k], places[n - 1]);
    }
  }

  /** Byte a of medium m is not part of an extent that is accessed in place. */
  predicate NotInPlace(pl: Place, m: Media, a: nat) {
    pl.buf.Direct? ==> pl.buf.scm == pl.ext.off && pl.ext.media.Scm? && !InExt(pl.ext, m, a)
  }

  /** The copy changes no byte of a medium outside the extents. */
  lemma {:induction false} CopyInMedia(w: World, places: seq<Place>, data: seq<seq<Byte>>, n: nat, m: Media, a: nat)
    requires Fit(places, data) && n <= |places|
    requires forall k :: 0 <= k < |places| ==> NotInPlace(places[k], m, a)
    ensures CopyIn(w, places, data, n).Dev(m, a) == w.Dev(m, a)
  {
    if n > 0 {
      CopyInMedia(w, places, data, n - 1, m, a);
    }
  }

  /** A byte of a region's buffer reaches the medium. */
  lemma UpdateCovered(chkSz: nat, regions: seq<Region>, w: World, es: seq<Event>, g: nat, e: Extent, b: Buf, j: nat)
    requires 0 < chkSz && Wfs(regions) && DevDisjoint(regions)
    requires Fair(chkSz, true, w, es, regions) && Finished(chkSz, es, regions)
    requires g < |regions| && Covers(regions[g], e, b) && j < e.len
    ensures Run(true, w, es).Dev(e.media, e.off + j) == Get(w, b, j)
  {
    var x := b.off + j;
    BufferByte(regions[g], e, b, j);
    UpdateByte(chkSz, w, es, regions, g, x);
    FinishedHits(chkSz, es, regions, g, x);
  }

  /** A byte that no DMA buffer stands for is outside all regions. */
  lemma OutsideRegions(p: Pool, rs: seq<Rsrvd>, i: nat, items: seq<Item>, places: seq<Place>, m: Media, a: nat)
    requires Prepared(p, rs, i, items, places)
    requires forall k :: 0 <= k < |items| && places[k].buf.Dma? ==> !InExt(items[k].ext, m, a)
    ensures forall g :: 0 <= g < |rs[i].regions| ==> !InDev(rs[i].regions[g], m, a)
  {
    RegionsWf(p, rs, i);
    OpenPrepared(p, rs, i, items, places);
    forall k | 0 <= k < |items| ensures places[k].ext == items[k].ext {
      assert PlaceOk(p.cfg, rs[i], items[k], places[k]);
    }
    forall g | 0 <= g < |rs[i].regions| ensures !InDev(rs[i].regions[g], m, a) {
      if InDev(rs[i].regions[g], m, a) {
        var k := OwnerOfByte(rs[i].regions[g], g, places, a);
      }
    }
  }

  lemma UpdateFacts(p: Pool, rs: seq<Rsrvd>, i: nat, items: seq<Item>, places: seq<Place>)
    requires Prepared(p, rs, i, items, places) && NoOverlap(items)
    ensures 0 < p.cfg.chkSz && Wfs(rs[i].regions) && DevDisjoint(rs[i].regions)
  {
    PreparedFacts(p, rs, i, items, places);
    OpenPrepared(p, rs, i, items, places);
    forall g, k | 0 <= g < k < |rs[i].regions| ensures DevApart(rs[i].regions[g], rs[i].regions[k]) {
      RegionsApart(p.cfg, rs[i], items, places, g, k);
    }
  }

  /** Once the request bytes were copied into the buffers and all writes are done, every extent on its medium holds the
      bytes that were copied for it. */
  lemma UpdateRefines(p: Pool, rs: seq<Rsrvd>, i: nat, items: seq<Item>, places: seq<Place>, w: World,
                      data: seq<seq<Byte>>, es: seq<Event>, k: nat, j: nat)
    requires Prepared(p, rs, i, items, places) && NoOverlap(items) && Fit(places, data)
    requires var w1 := CopyIn(w, places, data, |places|);
             && Fair(p.cfg.chkSz, true, w1, es, rs[i].regions) && Finished(p.cfg.chkSz, es, rs[i].regions)
             && k < |items| && !items[k].ext.hole && j < |data[k]|
             && (places[k].buf.Direct? ==> Quiet(true, w1, es, Scm, items[k].ext.off + items[k].ext.prefix + j))
    ensures var w1 := CopyIn(w, places, data, |places|);
            Run(true, w1, es).Dev(items[k].ext.media, items[k].ext.off + items[k].ext.prefix + j) == data[k][j]
  {
    var e := items[k].ext;
    var w1 := CopyIn(w, places, data, |places|);
    var n := e.prefix + j;
    PlaceAt(p, rs, i, items, places, k);
    UpdateFacts(p, rs, i, items, places);
    forall l | 0 <= l < |places| && l != k ensures BufApart(places[k], places[l]) {
      BuffersApart(p, rs, i, items, places, k, l);
    }
    CopyInByte(w, places, data, |places|, k, j);
    if places[k].buf.Dma? {
      UpdateCovered(p.cfg.chkSz, rs[i].regions, w1, es, places[k].rg, e, places[k].buf, n);
    } else {
      InPlaceOutside(p, rs, i, items, places, k, n);
      OutsideByte(p.cfg.chkSz, w1, es, rs[i].regions, Scm, e.off + n);
    }
  }

  /** A byte of an extent that is accessed in place is outside all regions. */
  lemma InPlaceOutside(p: Pool, rs: seq<Rsrvd>, i: nat, items: seq<Item>, places: seq<Place>, k: nat, n: nat)
    requires Prepared(p, rs, i, items, places) && NoOverlap(items)
    requires k < |items| && places[k].buf.Direct? && n < items[k].ext.len
    ensures forall g :: 0 <= g < |rs[i].regions| ==> !InDev(rs[i].regions[g], Scm, items[k].ext.off + n)
  {
    var a := items[k].ext.off + n;
    PlaceAt(p, rs, i, items, places, k);
    forall l | 0 <= l < |items| && places[l].buf.Dma? ensures !InExt(items[l].ext, Scm, a) {
      PlaceAt(p, rs, i, items, places, l);
      ApartBytes(items[k].ext, items[l].ext, Scm, a);
    }
    OutsideRegions(p, rs, i, items, places, Scm, a);
  }

  /** Copy and writes change no byte of a medium outside the SCM ranges and the NVMe pages of the extents, whether the
      extents overlap or not and whether the writes are finished or not. */
  lemma UpdateFrame(p: Pool, rs: seq<Rsrvd>, i: nat, items: seq<Item>, places: seq<Place>, w: World,
                    data: seq<seq<Byte>>, es: seq<Event>, m: Media, a: nat)
    requires Prepared(p, rs, i, items, places) && Fit(places, data)
    requires forall k :: 0 <= k < |items| && Real(items[k].ext) ==> !InExt(items[k].ext, m, a)
    requires var w1 := CopyIn(w, places, data, |places|);
             Fair(p.cfg.chkSz, true, w1, es, rs[i].regions) && Quiet(true, w1, es, m, a)
    ensures Run(true, CopyIn(w, places, data, |places|), es).Dev(m, a) == w.Dev(m, a)
  {
    PreparedFacts(p, rs, i, items, places);
    forall k | 0 <= k < |items| ensures NotInPlace(places[k], m, a)
      && (places[k].buf.Dma? ==> !InExt(items[k].ext, m, a)) {
      PlaceAt(p, rs, i, items, places, k);
    }
    CopyInMedia(w, places, data, |places|, m, a);
    OutsideRegions(p, rs, i, items, places, m, a);
    OutsideByte(p.cfg.chkSz, CopyIn(w, places, data, |places|), es, rs[i].regions, m, a);
  }
}
