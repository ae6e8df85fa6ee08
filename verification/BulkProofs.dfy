/** The bulk-handle cache keeps the invariant: populating, evicting, holding and unholding handles. */
module BulkProofs {
  import opened BioTypes
  import opened SeqLib
  import opened Pool
  import opened PoolInv
  import opened ReserveProofs
  import opened ReleaseProofs

  // ---------------------------------------------------------------------------------------------
  // Eviction
  // ---------------------------------------------------------------------------------------------

  /** In a chunk that `bulk_chunk_is_idle` accepts no handle is in use. */
  lemma AllIdle(p: Pool, c: ChunkId)
    requires IdleHandles(p) && ChunkIdle(p, c)
    ensures forall n: nat :: Hd(p, HdlRef(c, n)).inuse == 0
  {
    SubsetSize(IdleIdx(p, c), Below(Chk(p, c).bulkCnt));
    forall n: nat ensures Hd(p, HdlRef(c, n)).inuse == 0 {
      assert HdlOk(p, HdlRef(c, n));
      if n < Chk(p, c).bulkCnt {
        assert n in Below(Chk(p, c).bulkCnt) && n in IdleIdx(p, c);
      }
    }
  }

  /** Buffer `q` is `p` after chunk c left group g for the idle list. */
  ghost predicate Evicted(p: Pool, q: Pool, c: ChunkId, g: nat) {
    && g < |p.grps| && c in p.heap && p.heap[c].loc == InGrp(g)
    && q == p.(heap := q.heap, idle := p.idle + [c], grps := q.grps)
    && q.heap.Keys == p.heap.Keys
    && (forall x :: x != c ==> Chk(q, x) == Chk(p, x))
    && Chk(q, c) == Chk(p, c).(bulkCnt := 0, bulkIdle := 0, grp := None, loc := OnIdle)
    && |q.grps| == |p.grps|
    && (forall f :: 0 <= f < |p.grps| && f != g ==> q.grps[f] == p.grps[f])
    && q.grps[g].pgs == p.grps[g].pgs
    && q.grps[g].chks == Remove<nat>(p.grps[g].chks, c)
    && q.grps[g].idleHdls == DropChk(p.grps[g].idleHdls, c)
    && q.grps[g].chkCnt == |q.grps[g].chks|
  }

  lemma EvictShape(p: Pool, c: ChunkId)
    requires Lists(p) && Chunks(p) && Chk(p, c).loc.InGrp?
    ensures Evicted(p, EvictOne(p, c), c, Chk(p, c).loc.g)
  {
    assert ChunkOk(p, p.heap[c]);
    assert c in p.grps[Chk(p, c).loc.g].chks;
  }

  lemma EvictLists(p: Pool, q: Pool, c: ChunkId, g: nat)
    requires Evicted(p, q, c, g) && Lists(p)
    ensures Lists(q)
  {
    assert c in p.grps[g].chks && c !in p.idle;
    NoDupAppend(p.idle, c);
    SumUpdate(p.grps, g, q.grps[g]);
    assert q.grps == p.grps[g := q.grps[g]];
    forall f, x | 0 <= f < |q.grps| ensures x in q.grps[f].chks <==> Chk(q, x).loc == InGrp(f) {
      assert x in p.grps[f].chks <==> Chk(p, x).loc == InGrp(f);
    }
  }

  /** Group sizes are the same. */
  ghost predicate SameSizes(p: Pool, q: Pool) {
    q.cfg == p.cfg && |q.grps| == |p.grps| && forall g :: Grp(q, g).pgs == Grp(p, g).pgs
  }

  lemma EvictChunks(p: Pool, q: Pool, c: ChunkId, g: nat)
    requires Evicted(p, q, c, g) && Chunks(p) && Used(p)
    ensures Chunks(q) && Used(q)
  {
    assert ChunkOk(p, p.heap[c]);
    forall x | x in q.heap ensures ChunkOk(q, q.heap[x]) {
      assert ChunkOk(p, p.heap[x]);
      assert x != c ==> Chk(q, x) == Chk(p, x);
    }
    forall t ensures UsedOf(q, t) == UsedOf(p, t) {
      forall x ensures x in UsedOf(q, t) <==> x in UsedOf(p, t) {
        assert x != c ==> Chk(q, x) == Chk(p, x);
      }
    }
    forall t | t in q.cur ensures Chk(q, q.cur[t]) == Chk(p, p.cur[t]) {
      assert Chk(p, p.cur[t]).loc == OnUsed;
    }
  }

  lemma EvictHdls(p: Pool, q: Pool, c: ChunkId, g: nat)
    requires Evicted(p, q, c, g) && HdlsOk(p) && forall n: nat :: Hd(p, HdlRef(c, n)).inuse == 0
    ensures HdlsOk(q)
  {
    forall h ensures HdlOk(q, h) {
      assert HdlOk(p, h);
      if h.chk == c {
        assert Hd(p, HdlRef(c, h.idx)).inuse == 0;
      } else {
        assert Chk(q, h.chk) == Chk(p, h.chk);
      }
    }
  }

  lemma EvictIdle(p: Pool, q: Pool, c: ChunkId, g: nat)
    requires Evicted(p, q, c, g) && IdleLists(p) && IdleCounts(p)
    ensures IdleLists(q) && IdleCounts(q)
  {
    forall f, h | 0 <= f < |q.grps| ensures h in q.grps[f].idleHdls <==> IdleIn(q, f, h) {
      assert h in p.grps[f].idleHdls <==> IdleIn(p, f, h);
    }
    forall x ensures Chk(q, x).bulkIdle == |IdleIdx(q, x)| {
      assert IdleIdx(q, x) == if x == c then {} else IdleIdx(p, x);
    }
  }

  lemma EvictRegions(p: Pool, q: Pool, rs: seq<Rsrvd>, c: ChunkId, g: nat)
    requires Evicted(p, q, c, g) && Chunks(p) && RefCounts(p, rs) && Regions(p, rs) && Holders(p, rs) && IdleHandles(p)
    requires ChunkIdle(p, c)
    ensures RefCounts(q, rs) && Regions(q, rs)
  {
    EvictRefs(p, q, rs, c, g);
    AllIdle(p, c);
    forall i, k | 0 <= i < |rs| && 0 <= k < |rs[i].regions| ensures RegionOk(q, rs[i], rs[i].regions[k]) {
      EvictRegion(p, q, rs, c, g, i, k);
    }
  }

  lemma EvictRefs(p: Pool, q: Pool, rs: seq<Rsrvd>, c: ChunkId, g: nat)
    requires Evicted(p, q, c, g) && RefCounts(p, rs)
    ensures RefCounts(q, rs)
  {
    forall x | x in q.heap ensures q.heap[x].refs == Occ(rs, x) {
      assert x != c ==> Chk(q, x) == Chk(p, x);
    }
    forall i, x | 0 <= i < |rs| && x in rs[i].chks ensures HoldsChk(q, rs[i], x) {
      assert HoldsChk(p, rs[i], x);
    }
  }

  lemma EvictRegion(p: Pool, q: Pool, rs: seq<Rsrvd>, c: ChunkId, g: nat, i: nat, k: nat)
    requires Evicted(p, q, c, g) && Chunks(p) && RefCounts(p, rs) && Regions(p, rs) && Holders(p, rs) && IdleHandles(p)
    requires forall n: nat :: n < Chk(p, c).bulkCnt ==> Hd(p, HdlRef(c, n)).inuse == 0
    requires i < |rs| && k < |rs[i].regions|
    ensures RegionOk(q, rs[i], rs[i].regions[k])
  {
    var r := rs[i].regions[k];
    assert RegionOk(p, rs[i], r);
    if r.hdl.None? {
      assert HoldsChk(p, rs[i], r.chk);
    } else {
      HeldLive(p, rs, i, r.hdl.value);
      assert r.hdl.value == HdlRef(r.chk, r.hdl.value.idx);
      assert Chk(q, r.chk) == Chk(p, r.chk) && ChunkOk(p, p.heap[r.chk]);
      assert HdlLen(q, r.hdl.value) == HdlLen(p, r.hdl.value);
    }
  }

  /** `bulk_grp_evict_one` of an idle chunk. */
  lemma EvictCore(p: Pool, rs: seq<Rsrvd>, c: ChunkId)
    requires Core(p, rs) && Chk(p, c).loc.InGrp? && ChunkIdle(p, c)
    ensures Core(EvictOne(p, c), rs)
  {
    Open(p, rs);
    var q := EvictOne(p, c);
    var g := Chk(p, c).loc.g;
    EvictShape(p, c);
    EvictLists(p, q, c, g);
    EvictChunks(p, q, c, g);
    AllIdle(p, c);
    EvictHdls(p, q, c, g);
    EvictIdle(p, q, c, g);
    EvictRegions(p, q, rs, c, g);
    Close(q, rs);
  }

  // ---------------------------------------------------------------------------------------------
  // Groups
  // ---------------------------------------------------------------------------------------------

  /** The groups of `q` are those of `p`, except that empty ones may have another size and new empty ones may
      follow; the index is arbitrary. */
  ghost predicate Regrouped(p: Pool, q: Pool) {
    && q == p.(grps := q.grps, sorted := q.sorted, lru := q.lru)
    && |p.grps| <= |q.grps|
    && (forall g :: 0 <= g < |p.grps| ==>
          && q.grps[g] == p.grps[g].(pgs := q.grps[g].pgs)
          && (p.grps[g].chks != [] ==> q.grps[g].pgs == p.grps[g].pgs))
    && (forall g :: |p.grps| <= g < |q.grps| ==> q.grps[g].chkCnt == 0 && q.grps[g].chks == []
                                                 && q.grps[g].idleHdls == [])
    && SumChks(q.grps) == SumChks(p.grps)
  }

  /** A group with a chunk keeps its size. */
  lemma GroupOfChunk(p: Pool, q: Pool, c: ChunkId)
    requires Regrouped(p, q) && Lists(p) && Chk(p, c).loc.InGrp?
    ensures Grp(q, Chk(p, c).loc.g).pgs == Grp(p, Chk(p, c).loc.g).pgs && Chk(p, c).loc.g < |p.grps|
  {
    assert c in p.grps[Chk(p, c).loc.g].chks;
  }

  lemma RegroupLists(p: Pool, q: Pool)
    requires Regrouped(p, q) && Lists(p) && Chunks(p) && Used(p)
    ensures Lists(q) && Chunks(q) && Used(q)
  {
    forall c ensures Chk(q, c) == Chk(p, c) {
    }
    forall g, c | 0 <= g < |q.grps| ensures c in q.grps[g].chks <==> Chk(q, c).loc == InGrp(g) {
      if g < |p.grps| {
        assert c in p.grps[g].chks <==> Chk(p, c).loc == InGrp(g);
      }
    }
    forall c | c in q.heap ensures ChunkOk(q, q.heap[c]) {
      assert ChunkOk(p, p.heap[c]);
      if Chk(p, c).loc.InGrp? {
        GroupOfChunk(p, q, c);
      }
    }
    forall t ensures UsedOf(q, t) == UsedOf(p, t) {
    }
  }

  lemma RegroupHandles(p: Pool, q: Pool)
    requires Regrouped(p, q) && Lists(p) && Chunks(p) && IdleHandles(p)
    ensures IdleHandles(q)
    ensures forall h :: Live(p, h) ==> HdlLen(q, h) == HdlLen(p, h)
  {
    forall c ensures Chk(q, c) == Chk(p, c) {
    }
    forall h ensures HdlOk(q, h) && (Live(p, h) ==> HdlLen(q, h) == HdlLen(p, h)) {
      assert HdlOk(p, h);
      if Chk(p, h.chk).loc.InGrp? {
        GroupOfChunk(p, q, h.chk);
        assert ChunkOk(p, p.heap[h.chk]);
      }
    }
    forall g, h | 0 <= g < |q.grps| ensures h in q.grps[g].idleHdls <==> IdleIn(q, g, h) {
      if g < |p.grps| {
        assert h in p.grps[g].idleHdls <==> IdleIn(p, g, h);
      }
    }
    forall c ensures IdleIdx(q, c) == IdleIdx(p, c) {
    }
  }

  lemma RegroupCore(p: Pool, q: Pool, rs: seq<Rsrvd>)
    requires Core(p, rs) && Regrouped(p, q)
    ensures Core(q, rs)
  {
    Open(p, rs);
    RegroupLists(p, q);
    RegroupHandles(p, q);
    assert RefCounts(q, rs) by {
      forall i, c | 0 <= i < |rs| && c in rs[i].chks ensures HoldsChk(q, rs[i], c) {
        assert HoldsChk(p, rs[i], c);
      }
    }
    assert Regions(q, rs) by {
      forall i, k | 0 <= i < |rs| && 0 <= k < |rs[i].regions| ensures RegionOk(q, rs[i], rs[i].regions[k]) {
        assert RegionOk(p, rs[i], rs[i].regions[k]);
        if rs[i].regions[k].hdl.Some? {
          HeldLive(p, rs, i, rs[i].regions[k].hdl.value);
        }
      }
    }
    Close(q, rs);
  }

  // ---------------------------------------------------------------------------------------------
  // Populating
  // ---------------------------------------------------------------------------------------------

  /** Buffer `q` is `p` after its first idle chunk c was populated and moved to group g. */
  ghost predicate Populated(p: Pool, q: Pool, c: ChunkId, g: nat) {
    && g < |p.grps| && p.idle != [] && c == p.idle[0] && c in p.heap
    && q == p.(heap := q.heap, idle := p.idle[1..], hdls := q.hdls, grps := q.grps)
    && q.heap.Keys == p.heap.Keys
    && (forall x :: x != c ==> Chk(q, x) == Chk(p, x))
    && var n := PerChunk(p.cfg.chkSz, p.grps[g].pgs);
       && Chk(q, c) == Chk(p, c).(bulks := true, grp := Some(g), ctype := Io, bulkCnt := n, bulkIdle := n,
                                  loc := InGrp(g))
       && (forall h :: Hd(q, h) == if h.chk == c && h.idx < n then Hd(p, h).(pgIdx := p.grps[g].pgs * h.idx)
                                else Hd(p, h))
       && q.grps == p.grps[g := p.grps[g].(chks := p.grps[g].chks + [c], chkCnt := p.grps[g].chkCnt + 1,
                                           idleHdls := p.grps[g].idleHdls + HdlRefs(c, n))]
  }

  lemma PopulateShape(p: Pool, g: nat, regOk: bool)
    requires g < |p.grps| && p.idle != [] && p.idle[0] in p.heap && Populate(p, p.idle[0], g, regOk).0 == Ok
    ensures Populated(p, MoveToGrp(Populate(p, p.idle[0], g, regOk).1, g), p.idle[0], g)
  {
  }

  lemma PopulateLists(p: Pool, q: Pool, c: ChunkId, g: nat)
    requires Populated(p, q, c, g) && Lists(p)
    ensures Lists(q)
  {
    assert c in p.idle && Chk(p, c).loc == OnIdle;
    NoDupTail(p.idle);
    assert c !in p.grps[g].chks;
    NoDupAppend(p.grps[g].chks, c);
    SumUpdate(p.grps, g, q.grps[g]);
    forall f, x | 0 <= f < |q.grps| ensures x in q.grps[f].chks <==> Chk(q, x).loc == InGrp(f) {
      assert x in p.grps[f].chks <==> Chk(p, x).loc == InGrp(f);
    }
  }

  lemma PopulateChunks(p: Pool, q: Pool, c: ChunkId, g: nat)
    requires Populated(p, q, c, g) && Chunks(p) && Used(p) && Chk(p, c).loc == OnIdle
    ensures Chunks(q) && Used(q)
  {
    assert ChunkOk(p, p.heap[c]);
    assert forall f :: Grp(q, f).pgs == Grp(p, f).pgs;
    forall x | x in q.heap ensures ChunkOk(q, q.heap[x]) {
      assert ChunkOk(p, p.heap[x]);
      assert x != c ==> Chk(q, x) == Chk(p, x);
    }
    forall t ensures UsedOf(q, t) == UsedOf(p, t) {
      forall x ensures x in UsedOf(q, t) <==> x in UsedOf(p, t) {
        assert x != c ==> Chk(q, x) == Chk(p, x);
      }
    }
  }

  lemma PopulateHdls(p: Pool, q: Pool, c: ChunkId, g: nat)
    requires Populated(p, q, c, g) && HdlsOk(p) && Chk(p, c).loc == OnIdle
    ensures HdlsOk(q)
  {
    assert forall f :: Grp(q, f).pgs == Grp(p, f).pgs;
    forall h ensures HdlOk(q, h) {
      assert HdlOk(p, h);
      assert h.chk != c ==> Chk(q, h.chk) == Chk(p, h.chk);
    }
  }

  lemma PopulateIdle(p: Pool, q: Pool, c: ChunkId, g: nat)
    requires Populated(p, q, c, g) && HdlsOk(p) && IdleLists(p) && IdleCounts(p) && Chk(p, c).loc == OnIdle
    ensures IdleLists(q) && IdleCounts(q)
  {
    NothingHeld(p, c);
    PopulateIdleLists(p, q, c, g);
    forall x ensures Chk(q, x).bulkIdle == |IdleIdx(q, x)| {
      PopulateIdleCount(p, q, c, g, x);
    }
  }

  /** No handle of a chunk outside the groups is in use. */
  lemma NothingHeld(p: Pool, c: ChunkId)
    requires HdlsOk(p) && Chk(p, c).loc == OnIdle
    ensures forall h: HdlRef :: h.chk == c ==> Hd(p, h).inuse == 0
  {
    forall h: HdlRef | h.chk == c ensures Hd(p, h).inuse == 0 {
      assert HdlOk(p, h);
    }
  }

  lemma PopulateIdleLists(p: Pool, q: Pool, c: ChunkId, g: nat)
    requires Populated(p, q, c, g) && IdleLists(p) && Chk(p, c).loc == OnIdle
    requires forall h: HdlRef :: h.chk == c ==> Hd(p, h).inuse == 0
    ensures IdleLists(q)
  {
    var n := PerChunk(p.cfg.chkSz, p.grps[g].pgs);
    assert NoDup(q.grps[g].idleHdls) by {
      forall h | h in p.grps[g].idleHdls ensures h !in HdlRefs(c, n) {
        assert IdleIn(p, g, h);
      }
    }
    forall f, h | 0 <= f < |q.grps| ensures h in q.grps[f].idleHdls <==> IdleIn(q, f, h) {
      assert h in p.grps[f].idleHdls <==> IdleIn(p, f, h);
      assert h.chk != c ==> Chk(q, h.chk) == Chk(p, h.chk);
    }
  }

  lemma PopulateIdleCount(p: Pool, q: Pool, c: ChunkId, g: nat, x: ChunkId)
    requires Populated(p, q, c, g) && IdleCounts(p)
    requires forall h: HdlRef :: h.chk == c ==> Hd(p, h).inuse == 0
    ensures Chk(q, x).bulkIdle == |IdleIdx(q, x)|
  {
    if x == c {
      assert IdleIdx(q, c) == Below(PerChunk(p.cfg.chkSz, p.grps[g].pgs));
    } else {
      assert Chk(q, x) == Chk(p, x);
      assert IdleIdx(q, x) == IdleIdx(p, x);
    }
  }

  lemma PopulateRegions(p: Pool, q: Pool, rs: seq<Rsrvd>, c: ChunkId, g: nat)
    requires Populated(p, q, c, g) && Chunks(p) && RefCounts(p, rs) && Regions(p, rs) && Holders(p, rs)
             && IdleHandles(p)
    requires Chk(p, c).loc == OnIdle
    ensures RefCounts(q, rs) && Regions(q, rs) && Holders(q, rs)
  {
    PopulateRefs(p, q, rs, c, g);
    forall h ensures Hd(q, h).inuse == Hd(p, h).inuse {
    }
    forall i, k | 0 <= i < |rs| && 0 <= k < |rs[i].regions| ensures RegionOk(q, rs[i], rs[i].regions[k]) {
      PopulateRegion(p, q, rs, c, g, i, k);
    }
  }

  lemma PopulateRefs(p: Pool, q: Pool, rs: seq<Rsrvd>, c: ChunkId, g: nat)
    requires Populated(p, q, c, g) && RefCounts(p, rs) && Chk(p, c).loc == OnIdle
    ensures RefCounts(q, rs)
  {
    forall x | x in q.heap ensures q.heap[x].refs == Occ(rs, x) {
      assert x != c ==> Chk(q, x) == Chk(p, x);
    }
    forall i, x | 0 <= i < |rs| && x in rs[i].chks ensures HoldsChk(q, rs[i], x) {
      assert HoldsChk(p, rs[i], x);
      assert x != c ==> Chk(q, x) == Chk(p, x);
    }
  }

  lemma PopulateRegion(p: Pool, q: Pool, rs: seq<Rsrvd>, c: ChunkId, g: nat, i: nat, k: nat)
    requires Populated(p, q, c, g) && Chunks(p) && RefCounts(p, rs) && Regions(p, rs) && Holders(p, rs)
             && IdleHandles(p)
    requires Chk(p, c).loc == OnIdle && i < |rs| && k < |rs[i].regions|
    ensures RegionOk(q, rs[i], rs[i].regions[k])
  {
    var r := rs[i].regions[k];
    assert RegionOk(p, rs[i], r);
    if r.hdl.None? {
      assert HoldsChk(p, rs[i], r.chk);
      assert Chk(q, r.chk) == Chk(p, r.chk);
    } else {
      HeldLive(p, rs, i, r.hdl.value);
      assert Chk(q, r.chk) == Chk(p, r.chk);
      assert HdlLen(q, r.hdl.value) == HdlLen(p, r.hdl.value);
    }
  }

  /** `bulk_chunk_populate` and the list move of `bulk_grp_grow`. */
  lemma PopulateCore(p: Pool, q: Pool, rs: seq<Rsrvd>, c: ChunkId, g: nat)
    requires Core(p, rs) && Populated(p, q, c, g)
    ensures Core(q, rs)
  {
    Open(p, rs);
    assert c in p.idle && Chk(p, c).loc == OnIdle;
    PopulateLists(p, q, c, g);
    PopulateChunks(p, q, c, g);
    PopulateHdls(p, q, c, g);
    PopulateIdle(p, q, c, g);
    PopulateRegions(p, q, rs, c, g);
    Close(q, rs);
  }
}
