/** What holds in every state that any number of descriptors can reach in any interleaving: the invariants of the single
    parts, put together. */
module Guarantees {
  import opened BioTypes
  import opened SeqLib
  import opened Pool
  import opened PoolInv
  import opened MapProofs
  import opened Mapping
  import opened MapRun
  import opened ReleaseProofs
  import opened ReleaseRun
  import opened GroupProofs
  import opened Transfer
  import opened Refinement
  import opened Lookup
  import opened Starvation
  import P = Protocol
  import I = ProtocolInv
  import R = Runs

  /** Isolation: buffer bytes of two reservations never overlap, of one descriptor or of two. */
  lemma Isolation(s: R.Sys, ms: seq<R.Move>, i: nat, k: nat, j: nat, l: nat)
    requires R.Init(s)
    requires var t := R.After(s, ms);
             i < |t.rs| && k < |t.rs[i].regions| && j < |t.rs| && l < |t.rs[j].regions| && (i != j || k != l)
    ensures var t := R.After(s, ms);
            Disjoint(t.rs[i].regions[k], t.rs[j].regions[l])
  {
    R.RunInv(s, ms);
    var t := R.After(s, ms);
    BytesDisjoint(t.pool, t.rs, i, k, j, l);
  }

  /** Every reservation lies inside a chunk that exists. */
  lemma InsideChunk(s: R.Sys, ms: seq<R.Move>, i: nat, k: nat)
    requires R.Init(s)
    requires var t := R.After(s, ms);
             i < |t.rs| && k < |t.rs[i].regions|
    ensures var t := R.After(s, ms);
            var r := t.rs[i].regions[k];
            r.chk in t.pool.heap && 0 <= r.Lo() < r.Hi() <= t.pool.heap[r.chk].pages * 4096
  {
    R.RunInv(s, ms);
    var t := R.After(s, ms);
    BytesInside(t.pool, t.rs, i, k);
  }

  /** A chunk of the idle or used list whose page cursor is zero carries no reservation. */
  lemma CursorReset(s: R.Sys, ms: seq<R.Move>, c: ChunkId, i: nat, k: nat)
    requires R.Init(s)
    requires var t := R.After(s, ms);
             && (Chk(t.pool, c).loc.OnUsed? || Chk(t.pool, c).loc.OnIdle?) && Chk(t.pool, c).pgIdx == 0
             && i < |t.rs| && k < |t.rs[i].regions|
    ensures R.After(s, ms).rs[i].regions[k].chk != c
  {
    R.RunInv(s, ms);
    var t := R.After(s, ms);
    ResetIsSafe(t.pool, t.rs, c, i, k);
  }

  /** Chunk conservation: every pooled chunk is on exactly one list, the counts agree with the lists, and the reference
      counts with the chunk arrays of the descriptors. */
  lemma ChunkConservation(s: R.Sys, ms: seq<R.Move>)
    requires R.Init(s)
    ensures var t := R.After(s, ms);
            Lists(t.pool) && Chunks(t.pool) && Used(t.pool) && RefCounts(t.pool, t.rs)
  {
    R.RunInv(s, ms);
    Open(R.After(s, ms).pool, R.After(s, ms).rs);
  }

  /** Bulk-handle accounting: idle lists, idle counts and holder counts are exact, and the group index is right. */
  lemma HandleAccounting(s: R.Sys, ms: seq<R.Move>)
    requires R.Init(s)
    ensures var t := R.After(s, ms);
            HdlsOk(t.pool) && IdleLists(t.pool) && IdleCounts(t.pool) && Holders(t.pool, t.rs) && Index(t.pool)
  {
    R.RunInv(s, ms);
    Open(R.After(s, ms).pool, R.After(s, ms).rs);
  }

  /** Looking up a group of `pgs` pages in a reachable state: the group that has this size if there is one, and none
      exactly if there is none, all slots are taken and no group is idle. */
  lemma GroupLookup(s: R.Sys, ms: seq<R.Move>, pgs: nat)
    requires R.Init(s) && 0 < pgs <= R.After(s, ms).pool.cfg.chkSz
    ensures var p := R.After(s, ms).pool;
            Got(p, GrpGet(p, pgs).0, GrpGet(p, pgs).1, pgs)
  {
    R.RunInv(s, ms);
    GrpGetInv(R.After(s, ms).pool, R.After(s, ms).rs, pgs);
  }

  /** Path separation: a chunk in a descriptor's chunk array is never one of a bulk group, and in bulk-cache mode it is
      a huge chunk. */
  lemma PathSeparation(s: R.Sys, ms: seq<R.Move>, i: nat, c: ChunkId)
    requires R.Init(s) && i < |R.After(s, ms).rs| && c in R.After(s, ms).rs[i].chks
    ensures var t := R.After(s, ms);
            && c in t.pool.heap && t.pool.heap[c].grp.None? && t.pool.heap[c].ctype == t.rs[i].kind.ctype
            && t.pool.heap[c].refs > 0 && !t.pool.heap[c].loc.InGrp?
            && (t.rs[i].kind.bulk ==> t.pool.heap[c].loc.Unlinked?)
  {
    R.RunInv(s, ms);
    var t := R.After(s, ms);
    Open(t.pool, t.rs);
    assert HoldsChk(t.pool, t.rs[i], c) && ChunkOk(t.pool, t.pool.heap[c]);
  }

  /** A descriptor that waits in the FIFO holds nothing, and as long as one waits, the head can run or somebody else
      holds a buffer and is active. */
  lemma WaitersHoldNothing(s: R.Sys, ms: seq<R.Move>, i: nat) returns (h: nat)
    requires R.Init(s) && i < |R.After(s, ms).ctl.iods| && R.After(s, ms).ctl.iods[i].inFifo
    ensures var t := R.After(s, ms);
            && i < |t.rs| && t.rs[i] == Empty(t.rs[i].kind)
            && h < |t.rs| == |t.ctl.iods|
            && (P.Enabled(t.ctl, P.Label.Again(h, P.Failed(true)))
                || (h != i && t.ctl.iods[h].act && t.rs[h].regions != []))
  {
    R.RunInv(s, ms);
    var t := R.After(s, ms);
    I.IodAt(t.ctl, i);
    assert R.Link(t, i);
    I.FifoAdmission(t.ctl);
    I.SumUpdate(t.ctl.iods, I.FifoOf, i, t.ctl.iods[i]);
    h := I.NeverStuck(t.ctl);
    assert R.Link(t, h);
  }

  /** What `dma_buffer_destroy` asserts: when no descriptor is active, no chunk is in use. */
  lemma NothingInUse(s: R.Sys, ms: seq<R.Move>)
    requires R.Init(s) && R.After(s, ms).ctl.active == 0
    ensures R.After(s, ms).pool.used == []
  {
    R.RunInv(s, ms);
    NobodyActive(R.After(s, ms));
  }

  /** `bio_iod_bulk` in every reachable state: for a prepared descriptor that maps through the cache it finds the handle
      of each extent, with the offset of its request. */
  lemma BulkInRun(s: R.Sys, ms: seq<R.Move>, t: R.Sys, n: nat, sgls: seq<seq<Item>>, l: nat, i: nat)
    requires R.Init(s) && t == R.After(s, ms) && R.Sized(t) && n < |t.rs| && t.ctl.iods[n].prep && t.rs[n].kind.bulk
    requires t.items[n] == Flatten(sgls) && l < |sgls| && i < |sgls[l]|
    ensures var k := Start(sgls, l) + i;
            && k < |t.rs[n].hdls| && k < |t.places[n]|
            && FoundFor(t.pool, t.rs[n], sgls[l][i].ext, t.places[n][k], t.rs[n].hdls[k])
            && EntryOk(t.pool, t.rs[n].hdls[k])
  {
    R.RunInv(s, ms);
    assert R.Link(t, n);
    BulkOfExtent(t.pool, t.rs, n, sgls, t.places[n], l, i);
    EntriesOk(t.pool, t.rs, n, Start(sgls, l) + i);
  }

  /** A prepared descriptor of a reachable state meets what the refinement theorems ask for, so its reads bring in
      exactly its extents and its writes put out exactly its extents. */
  lemma PreparedInRun(s: R.Sys, ms: seq<R.Move>, i: nat)
    requires R.Init(s)
    requires var t := R.After(s, ms);
             i < |t.rs| == |t.ctl.iods| == |t.items| == |t.places| && t.ctl.iods[i].prep
    ensures var t := R.After(s, ms);
            Prepared(t.pool, t.rs, i, t.items[i], t.places[i])
  {
    R.RunInv(s, ms);
    assert R.Link(R.After(s, ms), i);
  }

  /** Merging: after any sequence of extents, the last NVMe region on a chunk of the pool ends at the page cursor of the
      chunk, and all extents in one region have the same distance between buffer and blob. */
  lemma MergeInvariant(p: Pool, rs: seq<Rsrvd>, i: nat, items: seq<Item>, k: nat, l: nat)
    requires Inv(p, rs) && i < |rs| && rs[i] == Empty(rs[i].kind) && !rs[i].kind.bulk
    requires forall n :: 0 <= n < |items| ==> ItemOk(items[n])
    requires MapAll(p, rs[i], items).rc == Ok && k < |items| && l < |items|
    ensures var m := MapAll(p, rs[i], items);
            && (m.d.regions != [] && Last(m.d.regions).media.Nvme?
                && !Chk(m.pool, Last(m.d.regions).chk).loc.Unlinked? ==>
                  var r := Last(m.d.regions);
                  Chk(m.pool, r.chk).pgIdx == r.pgIdx + CeilPg(r.end) - FloorPg(r.off))
            && |m.places| == |items|
            && (m.places[k].buf.Dma? && m.places[l].buf.Dma? && m.places[k].rg == m.places[l].rg
                && items[k].ext.media.Nvme? ==>
                  m.places[k].buf.off - items[k].ext.off == m.places[l].buf.off - items[l].ext.off)
  {
    MapAllInv(p, rs, i, items);
    var m := MapAll(p, rs[i], items);
    var rt := rs[i := m.d];
    assert PlaceOk(p.cfg, m.d, items[k], m.places[k]) && PlaceOk(p.cfg, m.d, items[l], m.places[l]);
    if m.d.regions != [] {
      LastRegionEnds(m.pool, rt, i);
    }
  }

  lemma LastRegionEnds(p: Pool, rs: seq<Rsrvd>, i: nat)
    requires Core(p, rs) && i < |rs| && !rs[i].kind.bulk && Tip(p, rs[i]) && rs[i].regions != []
    ensures var r := Last(rs[i].regions);
            r.media.Nvme? && !Chk(p, r.chk).loc.Unlinked? ==>
              Chk(p, r.chk).pgIdx == r.pgIdx + CeilPg(r.end) - FloorPg(r.off)
  {
    RegionAt(p, rs, i, |rs[i].regions| - 1);
    RegionSpan(Last(rs[i].regions));
  }
}
