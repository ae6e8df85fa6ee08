/** Extents are handed over as a list of lists (`bd_sgls`); the mapping goes through them in order, and `bio_iod_bulk`
    finds the handle of one extent again. */
module Lookup {
  import opened BioTypes
  import opened Pool
  import opened PoolInv
  import opened MapProofs
  import opened Mapping
  import opened MapRun

  /** Elements in the lists before list s. */
  function Start<T>(sgls: seq<seq<T>>, s: nat): nat
    requires s <= |sgls|
  {
    if s == 0 then 0 else Start(sgls, s - 1) + |sgls[s - 1]|
  }

  /** All extents in order. */
  function Flatten(sgls: seq<seq<Item>>): seq<Item> {
    if sgls == [] then [] else Flatten(sgls[..|sgls| - 1]) + sgls[|sgls| - 1]
  }

  lemma {:induction false} StartTake(sgls: seq<seq<Item>>, n: nat, s: nat)
    requires s <= n <= |sgls|
    ensures Start(sgls[..n], s) == Start(sgls, s)
  {
    if s > 0 {
      StartTake(sgls, n, s - 1);
    }
  }

  lemma {:induction false} FlattenLen(sgls: seq<seq<Item>>)
    ensures |Flatten(sgls)| == Start(sgls, |sgls|)
  {
    if sgls != [] {
      FlattenLen(sgls[..|sgls| - 1]);
      StartTake(sgls, |sgls| - 1, |sgls| - 1);
    }
  }

  /** Extent i of list s. */
  lemma {:induction false} FlattenAt(sgls: seq<seq<Item>>, s: nat, i: nat)
    requires s < |sgls| && i < |sgls[s]|
    ensures Start(sgls, s) + i < |Flatten(sgls)| && Flatten(sgls)[Start(sgls, s) + i] == sgls[s][i]
  {
    var n := |sgls| - 1;
    FlattenLen(sgls[..n]);
    FlattenLen(sgls);
    StartTake(sgls, n, s);
    StartTake(sgls, n, n);
    if s < n {
      FlattenAt(sgls[..n], s, i);
    }
  }

  /** What `bio_iod_bulk` asserts about an entry of the handle array. */
  predicate EntryOk(p: Pool, oh: Option<HdlRef>) {
    oh.Some? ==> Hd(p, oh.value).inuse > 0 && Hd(p, oh.value).bulkOff < HdlLen(p, oh.value)
  }

  /** Every entry of a handle array meets these assertions. */
  lemma EntriesOk(p: Pool, rs: seq<Rsrvd>, n: nat, k: nat)
    requires Core(p, rs) && n < |rs| && k < |rs[n].hdls|
    ensures EntryOk(p, rs[n].hdls[k])
  {
    if rs[n].hdls[k].Some? {
      Open(p, rs);
      assert Some(rs[n].hdls[k].value) in rs[n].hdls;
      HeldLive(p, rs, n, rs[n].hdls[k].value);
      assert HdlOk(p, rs[n].hdls[k].value);
    }
  }

  /** `bio_iod_bulk`: the handle of extent `iovIdx` of list `sglIdx` and the offset of the request in the chunk. */
  method IodBulk(p: Pool, d: Rsrvd, sgls: seq<seq<Item>>, sglIdx: nat, iovIdx: nat)
    returns (r: Option<HdlRef>, off: nat)
    requires d.kind.bulk ==> sglIdx < |sgls| && iovIdx < |sgls[sglIdx]| && |d.hdls| == |Flatten(sgls)|
    requires forall k :: 0 <= k < |d.hdls| ==> EntryOk(p, d.hdls[k])
    ensures !d.kind.bulk ==> r.None?
    ensures d.kind.bulk ==> Start(sgls, sglIdx) + iovIdx < |d.hdls| && r == d.hdls[Start(sgls, sglIdx) + iovIdx]
    ensures r.Some? ==> off == Hd(p, r.value).pgIdx * 4096 + Hd(p, r.value).bulkOff
  {
    if !d.kind.bulk {
      return None, 0;
    }
    var bulkIdx := 0;
    var i := 0;
    while i < sglIdx
      invariant 0 <= i <= sglIdx && bulkIdx == Start(sgls, i)
    {
      bulkIdx := bulkIdx + |sgls[i]|;
      i := i + 1;
    }
    FlattenAt(sgls, sglIdx, iovIdx);
    bulkIdx := bulkIdx + iovIdx;
    r := d.hdls[bulkIdx];
    if r.None? {
      return r, 0;
    }
    var hd := Hd(p, r.value);
    assert hd.inuse > 0 && hd.bulkOff < HdlLen(p, r.value);
    off := hd.pgIdx * 4096 + hd.bulkOff;
  }

  /** Entry k of the handle array and what it says about its extent. */
  ghost predicate FoundFor(p: Pool, d: Rsrvd, e: Extent, pl: Place, oh: Option<HdlRef>) {
    && (oh.None? <==> e.len == 0 || Bypass(p.cfg, d.kind, e))
    && (oh.Some? ==> && pl.buf.Dma? && 0 <= pl.rg < |d.regions| && d.regions[pl.rg].hdl == oh
                     && Hd(p, oh.value).inuse > 0 && oh.value.chk == pl.buf.chk
                     && var off := Hd(p, oh.value).pgIdx * 4096 + Hd(p, oh.value).bulkOff;
                        if Exclusive(e) then off == pl.buf.off + e.prefix
                        else off == pl.buf.off - d.regions[pl.rg].chkOff)
  }

  /** After a full mapping through the bulk cache, entry (s, i) is the handle that holds extent i of list s, which the
      descriptor holds, and it is empty exactly if that extent is empty or bypasses the cache.  The offset is that of
      the request in the buffer of an extent that has its handle for itself, and that of the first extent in a shared
      handle. */
  lemma BulkOfExtent(p: Pool, rs: seq<Rsrvd>, n: nat, sgls: seq<seq<Item>>, places: seq<Place>, s: nat, i: nat)
    requires Inv(p, rs) && n < |rs| && rs[n].kind.bulk && Complete(p.cfg, rs[n], Flatten(sgls), places)
    requires s < |sgls| && i < |sgls[s]|
    ensures var k := Start(sgls, s) + i;
            && k < |rs[n].hdls| && k < |places| && places[k].ext == sgls[s][i].ext
            && FoundFor(p, rs[n], sgls[s][i].ext, places[k], rs[n].hdls[k])
  {
    FlattenAt(sgls, s, i);
    var k := Start(sgls, s) + i;
    assert PlaceOk(p.cfg, rs[n], Flatten(sgls)[k], places[k]);
    assert HandleFor(p.cfg, rs[n], Flatten(sgls)[k], places[k], rs[n].hdls[k]);
    if rs[n].hdls[k].Some? {
      EntriesOk(p, rs, n, k);
      RegionAt(p, rs, n, places[k].rg);
    }
  }
}
