/** Mapping all extents of a descriptor (`iod_map_iovs` around `iterate_biov`): what holds after every prefix of the
    extents, whether the mapping succeeds, runs out of chunks, or fails. */
module MapRun {
  import opened BioTypes
  import opened Folding
  import opened SeqLib
  import opened Pool
  import opened PoolInv
  import opened MapProofs
  import opened Mapping

  // ---------------------------------------------------------------------------------------------
  // One extent
  // ---------------------------------------------------------------------------------------------

  /** What the mapping relies on between two extents of one descriptor. */
  ghost predicate TipOk(p: Pool, d: Rsrvd) {
    if d.kind.bulk then BulkTip(p, d) else Tip(p, d)
  }

  /** The extent has no DMA buffer: it is empty or a hole, or it is accessed in place. */
  predicate NoBuffer(cfg: Config, k: Kind, e: Extent) {
    e.len == 0 || e.hole || DirectScm(cfg, k, e)
  }

  /** The kind of buffer an extent gets. */
  predicate BufOk(cfg: Config, k: Kind, e: Extent, b: Buf) {
    && (b.Null? <==> e.len == 0 || e.hole)
    && (b.Dma? <==> !NoBuffer(cfg, k, e))
    && (b.Direct? ==> b.scm == e.off && e.media.Scm?)
  }

  /** What mapping one extent promises about descriptor i. */
  ghost predicate ItemMapped(p: Pool, rs: seq<Rsrvd>, i: nat, it: Item, r: MapRes)
    requires i < |rs|
  {
    && Inv(r.pool, rs[i := r.d]) && TipOk(r.pool, r.d) && Placed(rs[i], r, it.ext) && r.pool.cfg == p.cfg
    && r.rc != Overflow
    && (r.rc == Ok ==> BufOk(p.cfg, rs[i].kind, it.ext, r.buf))
    && (!rs[i].kind.bulk ==> r.d.hdls == rs[i].hdls)
    && (rs[i].kind.bulk && r.rc == Ok ==> Recorded(p.cfg, rs[i], r.d, it.ext, r.buf))
  }

  /** The handle array gains the handle that holds the last region, or an empty entry for an extent that is empty or
      bypasses the cache. */
  predicate Recorded(cfg: Config, d: Rsrvd, d2: Rsrvd, e: Extent, b: Buf) {
    && |d2.hdls| == |d.hdls| + 1 && d2.hdls[..|d.hdls|] == d.hdls
    && (Last(d2.hdls).None? <==> e.len == 0 || Bypass(cfg, d.kind, e))
    && (Last(d2.hdls).Some? ==> d2.regions != [] && Last(d2.regions).hdl == Last(d2.hdls)
                                && OffsetOk(Last(d2.regions), e, b))
  }

  /** The offset of the request that region r notes for extent e: behind the prefix in the buffer of an extent that has
      its handle for itself, and zero, the start of the handle, for one that shares it. */
  predicate OffsetOk(r: Region, e: Extent, b: Buf) {
    && b.Dma? && r.reqOff == (if Exclusive(e) then e.PgOff() + e.prefix else 0)
    && (Exclusive(e) ==> b.off == r.pgIdx * 4096 + e.PgOff())
  }

  /** The regions after an extent was mapped: a new one for exactly this extent, or the last one widened to include it,
      or the same regions when it needs no buffer. */
  ghost predicate Shaped(d: Rsrvd, d2: Rsrvd, e: Extent, b: Buf) {
    if !b.Dma? then d2.regions == d.regions
    else if |d2.regions| == |d.regions| then
      && d.regions != [] && Mergeable(Last(d.regions), e)
      && d2.regions == d.regions[|d.regions| - 1 := Widen(Last(d.regions), e)]
    else
      && |d2.regions| == |d.regions| + 1 && d2.regions[..|d.regions|] == d.regions
      && Last(d2.regions).off == e.off && Last(d2.regions).end == e.End() && Last(d2.regions).media == e.media
  }

  lemma AddRegionShape(d: Rsrvd, d2: Rsrvd, r: Region, e: Extent, b: Buf)
    requires d2.regions == d.regions + [r] && r.off == e.off && r.end == e.End() && r.media == e.media && b.Dma?
    ensures Shaped(d, d2, e, b)
  {
  }

  lemma BumpShaped(p: Pool, d: Rsrvd, c: ChunkId, e: Extent, ref: bool)
    ensures Shaped(d, Bump(p, d, c, e, ref).d, e, Bump(p, d, c, e, ref).buf)
  {
    AddRegionShape(d, Bump(p, d, c, e, ref).d, NewRegion(c, Chk(p, c).pgIdx, 0, e), e, Bump(p, d, c, e, ref).buf);
  }

  lemma MapFreshShaped(p: Pool, d: Rsrvd, e: Extent, memOk: bool)
    ensures var r := MapFresh(p, d, e, memOk);
            && r.d.kind == d.kind && (r.rc == Ok ==> r.buf.Dma? && Shaped(d, r.d, e, r.buf))
            && (r.rc != Ok ==> r.d == d)
  {
    var (rc, p1) := EnsureIdle(p, None, memOk);
    if rc == Ok {
      BumpShaped(TakeIdle(p1, d.kind.ctype), d, p1.idle[0], e, true);
    }
  }

  lemma MapOneShape(p: Pool, d: Rsrvd, e: Extent, memOk: bool)
    ensures var r := MapOne(p, d, e, memOk);
            && (r.rc == Ok ==> Shaped(d, r.d, e, r.buf))
            && (r.rc == Ok ==> (r.buf.Dma? <==> !NoBuffer(p.cfg, d.kind, e)))
            && r.d.kind == d.kind
            && (r.rc != Ok || !r.buf.Dma? ==> r.d.regions == d.regions && r.d.chks == d.chks)
  {
    if !NoBuffer(p.cfg, d.kind, e) {
      if e.PgCnt() > p.cfg.chkSz {
        AddRegionShape(d, MapHuge(p, d, e).d, NewRegion(p.next, 0, 0, e), e, MapHuge(p, d, e).buf);
      } else if CanExpand(p, d, e) {
      } else if CanPad(d, e) {
        var l := Last(d.regions);
        AddRegionShape(d, Pad(p, d, e).d, NewRegion(l.chk, l.pgIdx, PadOff(l), e), e, Pad(p, d, e).buf);
      } else if LastChunkFits(p, d, e) {
        BumpShaped(p, d, Last(d.regions).chk, e, false);
      } else if CurChunkFits(p, d, e) {
        BumpShaped(p, d, p.cur[d.kind.ctype], e, true);
      } else {
        MapFreshShaped(p, d, e, memOk);
      }
    }
  }

  lemma UseHdlShape(p: Pool, d: Rsrvd, h: HdlRef, e: Extent)
    ensures var r := UseHdl(p, d, h, e);
            r.rc == Ok && r.buf.Dma? && Shaped(d, r.d, e, r.buf) && r.d.kind == d.kind
            && r.d.regions != [] && (!Exclusive(e) || !Hd(p, h).shareable ==> OffsetOk(Last(r.d.regions), e, r.buf))
  {
    var hd := Hd(p, h);
    AddRegionShape(d, UseHdl(p, d, h, e).d,
                   Region(h.chk, hd.pgIdx, hd.used, e.off, e.End(), e.media, Some(h), e.PgOff() + e.prefix), e,
                   UseHdl(p, d, h, e).buf);
  }

  lemma BulkMapOneShape(p: Pool, d: Rsrvd, it: Item)
    requires ItemOk(it) && d.kind.rdma
    ensures var r := BulkMapOne(p, d, it);
            && (r.rc == Ok ==> Shaped(d, r.d, it.ext, r.buf))
            && (r.rc == Ok ==> (r.buf.Dma? <==> !NoBuffer(p.cfg, d.kind, it.ext)))
            && r.d.kind == d.kind
            && (r.rc != Ok || !r.buf.Dma? ==> r.d.regions == d.regions && r.d.chks == d.chks)
  {
    if it.ext.len == 0 {
    } else if Bypass(p.cfg, d.kind, it.ext) {
      MapOneShape(p, d, it.ext, it.memOk);
    } else {
      var (rc, p1, h) := GetHdl(p, d, it);
      UseHdlShape(p1, d, h, it.ext);
    }
  }

  lemma MapItemShape(p: Pool, d: Rsrvd, it: Item)
    requires ItemOk(it) && (d.kind.bulk ==> d.kind.rdma)
    ensures var r := MapItem(p, d, it);
            && (r.rc == Ok ==> Shaped(d, r.d, it.ext, r.buf))
            && (r.rc == Ok ==> (r.buf.Dma? <==> !NoBuffer(p.cfg, d.kind, it.ext)))
            && r.d.kind == d.kind
            && (r.rc != Ok || !r.buf.Dma? ==> r.d.regions == d.regions && r.d.chks == d.chks)
  {
    if d.kind.bulk {
      BulkMapOneShape(p, d, it);
    } else {
      MapOneShape(p, d, it.ext, it.memOk);
    }
  }

  lemma BulkKind(p: Pool, rs: seq<Rsrvd>, i: nat)
    requires Core(p, rs) && i < |rs| && rs[i].kind.bulk
    ensures rs[i].kind.rdma && rs[i].kind.ctype == Io
  {
    Open(p, rs);
    assert KindOk(rs[i]);
  }

  /** Mapping one extent keeps the invariant, in either mode. */
  lemma MapItemInv(p: Pool, rs: seq<Rsrvd>, i: nat, it: Item)
    requires Inv(p, rs) && i < |rs| && TipOk(p, rs[i]) && ItemOk(it)
    ensures ItemMapped(p, rs, i, it, MapItem(p, rs[i], it))
  {
    if rs[i].kind.bulk {
      BulkKind(p, rs, i);
      MapItemShape(p, rs[i], it);
      BulkMapOneInv(p, rs, i, it);
    } else {
      MapItemShape(p, rs[i], it);
      MapOneInv(p, rs, i, it.ext, it.memOk);
    }
  }

  // ---------------------------------------------------------------------------------------------
  // All extents
  // ---------------------------------------------------------------------------------------------

  /** The buffer of a mapped extent lies in the region noted for it. */
  predicate PlaceOk(cfg: Config, d: Rsrvd, it: Item, pl: Place) {
    && pl.ext == it.ext && BufOk(cfg, d.kind, it.ext, pl.buf)
    && (pl.buf.Dma? ==> 0 <= pl.rg < |d.regions| && Covers(d.regions[pl.rg], it.ext, pl.buf))
  }

  predicate OwnsPage(pl: Place, g: nat, pg: nat) {
    && pl.buf.Dma? && pl.rg == g && pl.ext.media.Nvme?
    && FloorPg(pl.ext.off) <= pg < CeilPg(pl.ext.End())
  }

  predicate OwnsRange(pl: Place, g: nat, r: Region) {
    pl.buf.Dma? && pl.rg == g && pl.ext.media.Scm? && pl.ext.off == r.off && pl.ext.End() == r.end
  }

  /** A region transfers nothing but what its extents asked for: an SCM region is one extent, each page of an NVMe
      region is a page of one of its extents. */
  ghost predicate Owned(r: Region, g: nat, places: seq<Place>) {
    if r.media.Scm? then exists k :: 0 <= k < |places| && OwnsRange(places[k], g, r)
    else forall pg: nat {:trigger Page(pg)} :: Page(pg) && FloorPg(r.off) <= pg < CeilPg(r.end) ==>
      SomeOwner(places, g, pg)
  }

  ghost predicate SomeOwner(places: seq<Place>, g: nat, pg: nat) {
    exists k :: 0 <= k < |places| && OwnsPage(places[k], g, pg)
  }

  predicate Page(pg: nat) {
    true
  }

  /** After a full mapping `bd_bulk_hdls[k]` is the handle that holds extent k, with the offset of its request, and
      empty exactly for an extent that is empty or bypasses the cache. */
  predicate HandleFor(cfg: Config, d: Rsrvd, it: Item, pl: Place, oh: Option<HdlRef>) {
    && (oh.None? <==> it.ext.len == 0 || Bypass(cfg, d.kind, it.ext))
    && (oh.Some? ==> && pl.buf.Dma? && 0 <= pl.rg < |d.regions| && d.regions[pl.rg].hdl == oh
                     && OffsetOk(d.regions[pl.rg], it.ext, pl.buf))
  }

  /** What a successful mapping of all extents has established. */
  ghost predicate Complete(cfg: Config, d: Rsrvd, items: seq<Item>, places: seq<Place>) {
    && |places| == |items|
    && (forall k :: 0 <= k < |items| ==> PlaceOk(cfg, d, items[k], places[k]))
    && (forall g :: 0 <= g < |d.regions| ==> Owned(d.regions[g], g, places))
    && (d.kind.bulk ==> |d.hdls| == |items|
                        && forall k :: 0 <= k < |items| ==> HandleFor(cfg, d, items[k], places[k], d.hdls[k]))
  }

  lemma CoversWithin(r: Region, r2: Region, e: Extent, b: Buf)
    requires Covers(r, e, b) && Within(r, r2)
    ensures Covers(r2, e, b)
  {
  }

  /** The pages of a widened region are those of the region and of the new extent. */
  lemma WidenPages(r: Region, e: Extent, pg: nat)
    requires r.off < r.end && e.len > 0 && Mergeable(r, e)
    requires FloorPg(Widen(r, e).off) <= pg < CeilPg(Widen(r, e).end)
    ensures FloorPg(r.off) <= pg < CeilPg(r.end) || FloorPg(e.off) <= pg < CeilPg(e.End())
  {
  }

  /** A region that did not change keeps its owners. */
  lemma OwnedMore(r: Region, g: nat, places: seq<Place>, pl: Place)
    requires Owned(r, g, places)
    ensures Owned(r, g, places + [pl])
  {
    var more := places + [pl];
    if r.media.Scm? {
      var k :| 0 <= k < |places| && OwnsRange(places[k], g, r);
      assert OwnsRange(more[k], g, r);
    } else {
      forall pg: nat | Page(pg) && FloorPg(r.off) <= pg < CeilPg(r.end) ensures SomeOwner(more, g, pg) {
        var k :| 0 <= k < |places| && OwnsPage(places[k], g, pg);
        assert OwnsPage(more[k], g, pg);
      }
    }
  }

  /** The region that took in the new extent. */
  lemma OwnedLast(d: Rsrvd, d2: Rsrvd, e: Extent, b: Buf, places: seq<Place>)
    requires Shaped(d, d2, e, b) && b.Dma? && e.len > 0
    requires forall g :: 0 <= g < |d.regions| ==> d.regions[g].off < d.regions[g].end && Owned(d.regions[g], g, places)
    ensures d2.regions != []
    ensures Owned(Last(d2.regions), |d2.regions| - 1, places + [Place(e, b, |d2.regions| - 1)])
  {
    var g := |d2.regions| - 1;
    var r2 := d2.regions[g];
    var pl := Place(e, b, g);
    var more := places + [pl];
    assert more[|places|] == pl;
    if r2.media.Scm? {
      assert OwnsRange(more[|places|], g, r2);
    } else {
      forall pg: nat | Page(pg) && FloorPg(r2.off) <= pg < CeilPg(r2.end) ensures SomeOwner(more, g, pg) {
        if OwnsPage(pl, g, pg) {
          assert OwnsPage(more[|places|], g, pg);
        } else {
          var r := d.regions[g];
          WidenPages(r, e, pg);
          OwnedMore(r, g, places, pl);
        }
      }
    }
  }

  /** What one more mapped extent establishes, without the buffer behind it. */
  ghost predicate Next(cfg: Config, d: Rsrvd, d2: Rsrvd, it: Item, b: Buf) {
    && Grown(d, d2) && Shaped(d, d2, it.ext, b) && BufOk(cfg, d.kind, it.ext, b)
    && (b.Dma? ==> d2.regions != [] && Covers(Last(d2.regions), it.ext, b))
    && (d.kind.bulk ==> d.kind.rdma && Recorded(cfg, d, d2, it.ext, b))
  }

  lemma PlacesKept(cfg: Config, d: Rsrvd, d2: Rsrvd, items: seq<Item>, places: seq<Place>, k: nat)
    requires Complete(cfg, d, items, places) && Grown(d, d2) && k < |items|
    ensures PlaceOk(cfg, d2, items[k], places[k])
  {
    if places[k].buf.Dma? {
      CoversWithin(d.regions[places[k].rg], d2.regions[places[k].rg], items[k].ext, places[k].buf);
    }
  }

  lemma OwnersKept(cfg: Config, d: Rsrvd, d2: Rsrvd, items: seq<Item>, places: seq<Place>, it: Item, b: Buf, g: nat)
    requires Complete(cfg, d, items, places) && Next(cfg, d, d2, it, b) && g < |d2.regions|
    requires forall k :: 0 <= k < |d.regions| ==> d.regions[k].Wf()
    ensures Owned(d2.regions[g], g, places + [Place(it.ext, b, |d2.regions| - 1)])
  {
    if g < |d.regions| {
      OwnedMore(d.regions[g], g, places, Place(it.ext, b, |d2.regions| - 1));
    }
    if b.Dma? {
      OwnedLast(d, d2, it.ext, b, places);
    }
  }

  lemma HandlesFor(cfg: Config, d: Rsrvd, d2: Rsrvd, items: seq<Item>, places: seq<Place>, it: Item, b: Buf, k: nat)
    requires Complete(cfg, d, items, places) && Next(cfg, d, d2, it, b) && d.kind.bulk && k <= |items|
    ensures |d2.hdls| == |items| + 1
    ensures HandleFor(cfg, d2, (items + [it])[k], (places + [Place(it.ext, b, |d2.regions| - 1)])[k], d2.hdls[k])
  {
    if k < |items| {
      assert d2.hdls[k] == d2.hdls[..|d.hdls|][k] == d.hdls[k];
      assert HandleFor(cfg, d, items[k], places[k], d.hdls[k]);
    } else {
      assert d2.hdls[k] == Last(d2.hdls);
    }
  }

  lemma CompleteNext(cfg: Config, d: Rsrvd, d2: Rsrvd, items: seq<Item>, places: seq<Place>, it: Item, b: Buf)
    requires Complete(cfg, d, items, places) && Next(cfg, d, d2, it, b)
    requires forall k :: 0 <= k < |d.regions| ==> d.regions[k].Wf()
    ensures Complete(cfg, d2, items + [it], places + [Place(it.ext, b, |d2.regions| - 1)])
  {
    var its := items + [it];
    var pls := places + [Place(it.ext, b, |d2.regions| - 1)];
    forall k | 0 <= k < |its| ensures PlaceOk(cfg, d2, its[k], pls[k]) {
      if k < |items| {
        PlacesKept(cfg, d, d2, items, places, k);
      }
    }
    forall g | 0 <= g < |d2.regions| ensures Owned(d2.regions[g], g, pls) {
      OwnersKept(cfg, d, d2, items, places, it, b, g);
    }
    if d.kind.bulk {
      forall k | 0 <= k < |its| ensures |d2.hdls| == |its| && HandleFor(cfg, d2, its[k], pls[k], d2.hdls[k]) {
        HandlesFor(cfg, d, d2, items, places, it, b, k);
      }
      assert |d2.hdls| == |its|;
    }
  }

  lemma RegionsWf(p: Pool, rs: seq<Rsrvd>, i: nat)
    requires Core(p, rs) && i < |rs|
    ensures forall k :: 0 <= k < |rs[i].regions| ==> rs[i].regions[k].Wf()
  {
    Open(p, rs);
    forall k | 0 <= k < |rs[i].regions| ensures rs[i].regions[k].Wf() {
      assert RegionOk(p, rs[i], rs[i].regions[k]);
    }
  }

  /** A descriptor without regions has no chunks either, so there is nothing left when `iod_release_buffer` returns
      early. */
  predicate Backed(d: Rsrvd) {
    d.regions == [] ==> d.chks == []
  }

  /** What mapping a list of extents promises about descriptor i. */
  ghost predicate AllMapped(p: Pool, rs: seq<Rsrvd>, i: nat, items: seq<Item>, r: MapAllRes)
    requires i < |rs|
  {
    && Inv(r.pool, rs[i := r.d]) && r.pool.cfg == p.cfg && r.d.kind == rs[i].kind && r.rc != Overflow && Backed(r.d)
    && (r.rc == Ok ==> TipOk(r.pool, r.d) && Complete(p.cfg, r.d, items, r.places))
  }

  /** One more extent after a successful prefix. */
  lemma NextMapped(p: Pool, rs: seq<Rsrvd>, i: nat, items: seq<Item>, pre: MapAllRes, it: Item)
    requires i < |rs| && AllMapped(p, rs, i, items, pre) && pre.rc == Ok && ItemOk(it)
    ensures AllMapped(p, rs, i, items + [it], MapNext(pre, it))
  {
    var rt := rs[i := pre.d];
    var r := MapItem(pre.pool, pre.d, it);
    MapItemInv(pre.pool, rt, i, it);
    assert rt[i := r.d] == rs[i := r.d];
    MapNextShape(pre.pool, rt, i, it);
    if r.rc == Ok {
      RegionsWf(pre.pool, rt, i);
      ContinuedComplete(p.cfg, pre, items, it);
    }
  }

  lemma ContinuedComplete(cfg: Config, pre: MapAllRes, items: seq<Item>, it: Item)
    requires var r := MapItem(pre.pool, pre.d, it);
             pre.rc == Ok && r.rc == Ok && Complete(cfg, pre.d, items, pre.places) && Next(cfg, pre.d, r.d, it, r.buf)
    requires forall k :: 0 <= k < |pre.d.regions| ==> pre.d.regions[k].Wf()
    ensures Complete(cfg, MapNext(pre, it).d, items + [it], MapNext(pre, it).places)
  {
    var r := MapItem(pre.pool, pre.d, it);
    CompleteNext(cfg, pre.d, r.d, items, pre.places, it, r.buf);
  }

  lemma MapNextShape(p: Pool, rs: seq<Rsrvd>, i: nat, it: Item)
    requires Core(p, rs) && i < |rs| && ItemOk(it) && ItemMapped(p, rs, i, it, MapItem(p, rs[i], it)) && Backed(rs[i])
    ensures var r := MapItem(p, rs[i], it);
            Backed(r.d) && r.d.kind == rs[i].kind && (r.rc == Ok ==> Next(p.cfg, rs[i], r.d, it, r.buf))
  {
    if rs[i].kind.bulk {
      BulkKind(p, rs, i);
    }
    MapItemShape(p, rs[i], it);
  }

  lemma MapNone(p: Pool, rs: seq<Rsrvd>, i: nat)
    requires Inv(p, rs) && i < |rs| && rs[i] == Empty(rs[i].kind)
    ensures AllMapped(p, rs, i, [], MapAllRes(Ok, p, rs[i], []))
  {
    assert rs[i := rs[i]] == rs;
  }

  lemma MapFailed(p: Pool, rs: seq<Rsrvd>, i: nat, items: seq<Item>, more: seq<Item>, r: MapAllRes)
    requires i < |rs| && AllMapped(p, rs, i, items, r) && r.rc != Ok
    ensures AllMapped(p, rs, i, more, r)
  {
  }

  /** The same as `AllMapped`, folded. */
  ghost predicate Folded(p: Pool, rs: seq<Rsrvd>, i: nat, items: seq<Item>, r: MapAllRes)
    requires i < |rs|
  {
    forall x {:trigger Look(x)} :: Look(x) ==> AllMapped(p, rs, i, items, r)
  }

  lemma Unfold(p: Pool, rs: seq<Rsrvd>, i: nat, items: seq<Item>, r: MapAllRes)
    requires i < |rs| && Folded(p, rs, i, items, r)
    ensures AllMapped(p, rs, i, items, r)
  {
    assert Look(0);
  }

  lemma Fold(p: Pool, rs: seq<Rsrvd>, i: nat, items: seq<Item>, r: MapAllRes)
    requires i < |rs| && AllMapped(p, rs, i, items, r)
    ensures Folded(p, rs, i, items, r)
  {
  }

  /** The last extent of a list. */
  lemma LastMapped(p: Pool, rs: seq<Rsrvd>, i: nat, items: seq<Item>, n: nat, pre: MapAllRes)
    requires n + 1 == |items| && ItemOk(items[n]) && i < |rs| && Folded(p, rs, i, items[..n], pre)
    ensures Folded(p, rs, i, items, MapNext(pre, items[n]))
  {
    Unfold(p, rs, i, items[..n], pre);
    if pre.rc == Ok {
      NextMapped(p, rs, i, items[..n], pre, items[n]);
      assert items == items[..n] + [items[n]];
    } else {
      MapFailed(p, rs, i, items[..n], items, pre);
    }
    Fold(p, rs, i, items, MapNext(pre, items[n]));
  }

  lemma {:induction false} MapAllFolded(p: Pool, rs: seq<Rsrvd>, i: nat, items: seq<Item>)
    requires Inv(p, rs) && i < |rs| && rs[i] == Empty(rs[i].kind)
    requires forall k :: 0 <= k < |items| ==> ItemOk(items[k])
    ensures Folded(p, rs, i, items, MapAll(p, rs[i], items))
    decreases |items|
  {
    if items == [] {
      MapNone(p, rs, i);
      Fold(p, rs, i, [], MapAllRes(Ok, p, rs[i], []));
    } else {
      var n := |items| - 1;
      MapAllFolded(p, rs, i, items[..n]);
      LastMapped(p, rs, i, items, n, MapAll(p, rs[i], items[..n]));
    }
  }

  /** Mapping any list of extents, with any answers of the environment, keeps the invariant; on success every extent
      lies in the region noted for it, no region covers more than its extents, and the handle array matches the list. */
  lemma MapAllInv(p: Pool, rs: seq<Rsrvd>, i: nat, items: seq<Item>)
    requires Inv(p, rs) && i < |rs| && rs[i] == Empty(rs[i].kind)
    requires forall k :: 0 <= k < |items| ==> ItemOk(items[k])
    ensures AllMapped(p, rs, i, items, MapAll(p, rs[i], items))
  {
    MapAllFolded(p, rs, i, items);
    Unfold(p, rs, i, items, MapAll(p, rs[i], items));
  }
}
