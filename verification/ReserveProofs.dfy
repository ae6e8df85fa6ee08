/** Each step of the reservation engine keeps the invariant of the DMA buffer. */
module ReserveProofs {
  import opened BioTypes
  import opened SeqLib
  import opened Pool
  import opened PoolInv

  // ---------------------------------------------------------------------------------------------
  // Steps that touch no handle and no group
  // ---------------------------------------------------------------------------------------------

  /** Handles, groups and the bulk fields of all chunks are the same in both buffers. */
  ghost predicate SameBulk(p: Pool, q: Pool) {
    && q.cfg == p.cfg && q.hdls == p.hdls && q.grps == p.grps && q.sorted == p.sorted && q.lru == p.lru
    && (forall c :: Chk(q, c).bulkCnt == Chk(p, c).bulkCnt && Chk(q, c).bulkIdle == Chk(p, c).bulkIdle)
    && (forall c :: Chk(q, c).grp == Chk(p, c).grp)
    && (forall c :: Chk(q, c).loc.InGrp? || Chk(p, c).loc.InGrp? ==> Chk(q, c).loc == Chk(p, c).loc)
  }

  lemma SameBulkKeeps(p: Pool, q: Pool)
    requires SameBulk(p, q) && IdleHandles(p)
    ensures IdleHandles(q)
    ensures Index(p) ==> Index(q)
  {
    forall h ensures HdlOk(q, h) && Live(q, h) == Live(p, h) {
      assert HdlOk(p, h);
    }
    forall c ensures IdleIdx(q, c) == IdleIdx(p, c) {
    }
    assert forall g :: Grp(q, g) == Grp(p, g);
  }

  /** The room a region of chunk c has: up to the cursor, or all of a huge chunk. */
  function Limit(p: Pool, c: ChunkId): nat {
    if Chk(p, c).loc.OnUsed? then Chk(p, c).pgIdx else Chk(p, c).pages
  }

  lemma RegionsKept(p: Pool, q: Pool, rs: seq<Rsrvd>)
    requires Regions(p, rs) && RefCounts(p, rs) && Holders(p, rs) && IdleHandles(p) && SameBulk(p, q)
    requires forall i, c :: 0 <= i < |rs| && c in rs[i].chks ==> Limit(p, c) <= Limit(q, c)
    ensures Regions(q, rs)
  {
    forall i, k | 0 <= i < |rs| && 0 <= k < |rs[i].regions| ensures RegionOk(q, rs[i], rs[i].regions[k]) {
      var r := rs[i].regions[k];
      assert RegionOk(p, rs[i], r);
      if r.hdl.None? {
        assert Limit(p, r.chk) <= Limit(q, r.chk);
      } else {
        assert HdlLen(q, r.hdl.value) == HdlLen(p, r.hdl.value);
      }
    }
  }

  /** No chunk changed its list or type. */
  ghost predicate SameLinks(p: Pool, q: Pool) {
    && q.cfg == p.cfg && q.next == p.next && q.heap.Keys == p.heap.Keys
    && q.idle == p.idle && q.used == p.used && q.grps == p.grps && q.tot == p.tot
    && q.cur == p.cur && q.usedCnt == p.usedCnt
    && (forall c :: Chk(q, c).loc == Chk(p, c).loc && Chk(q, c).ctype == Chk(p, c).ctype)
  }

  /** No live chunk changed its list. */
  lemma LinksKept(p: Pool, q: Pool)
    requires Lists(p) && q.cfg == p.cfg && p.next <= q.next
    requires q.idle == p.idle && q.used == p.used && q.grps == p.grps && q.tot == p.tot
    requires forall c :: c in q.heap ==> c < q.next
    requires forall c :: Chk(q, c).loc == Chk(p, c).loc
    ensures Lists(q)
  {
    forall g, c | 0 <= g < |q.grps| ensures c in q.grps[g].chks <==> Chk(q, c).loc == InGrp(g) {
      assert c in p.grps[g].chks <==> Chk(p, c).loc == InGrp(g);
    }
  }

  lemma SameLinksKeeps(p: Pool, q: Pool)
    requires SameLinks(p, q)
    ensures Lists(p) ==> Lists(q)
    ensures Used(p) ==> Used(q)
  {
    if Lists(p) {
      LinksKept(p, q);
    }
    if Used(p) {
      forall t ensures UsedOf(q, t) == UsedOf(p, t) {
        forall c ensures c in UsedOf(q, t) <==> c in UsedOf(p, t) {
          assert Chk(q, c).loc == Chk(p, c).loc;
        }
      }
    }
  }

  /** No chunk changed its references, list or type. */
  lemma RefsKept(p: Pool, q: Pool, rs: seq<Rsrvd>)
    requires RefCounts(p, rs) && SameLinks(p, q)
    requires forall c :: Chk(q, c).refs == Chk(p, c).refs
    ensures RefCounts(q, rs)
  {
    forall c | c in q.heap ensures q.heap[c].refs == Occ(rs, c) {
      assert Chk(q, c).refs == Chk(p, c).refs;
    }
    forall i, c | 0 <= i < |rs| && c in rs[i].chks ensures HoldsChk(q, rs[i], c) {
      assert HoldsChk(p, rs[i], c);
    }
  }

  /** Only chunk c may differ. */
  ghost predicate SameBut(p: Pool, q: Pool, c: ChunkId) {
    forall x :: x != c ==> Chk(q, x) == Chk(p, x) && (x in q.heap <==> x in p.heap)
  }

  /** A chunk that is not live is on no list and in no descriptor. */
  lemma Fresh(p: Pool, rs: seq<Rsrvd>, c: ChunkId)
    requires Lists(p) && RefCounts(p, rs) && c !in p.heap
    ensures c !in p.idle && c !in p.used
    ensures forall i :: 0 <= i < |rs| ==> c !in rs[i].chks
    ensures Occ(rs, c) == 0
  {
    forall i | 0 <= i < |rs| ensures c !in rs[i].chks {
      assert c in rs[i].chks ==> HoldsChk(p, rs[i], c);
    }
    OccNone(rs, c);
  }

  lemma GrowLists(p: Pool)
    requires Lists(p) && p.tot < p.cfg.chkMax
    ensures Lists(Grow(p)) && SameBut(p, Grow(p), p.next)
  {
    var q := Grow(p);
    var c := p.next;
    assert c !in p.heap && Chk(p, c) == ZERO_CHUNK;
    assert SameBut(p, q, c);
    NoDupAppend(p.idle, c);
    forall g, x | 0 <= g < |q.grps| ensures x in q.grps[g].chks <==> Chk(q, x).loc == InGrp(g) {
      assert x in p.grps[g].chks <==> Chk(p, x).loc == InGrp(g);
    }
  }

  lemma GrowChunks(p: Pool)
    requires Chunks(p) && Used(p) && p.next !in p.heap
    ensures var q := Grow(p); Chunks(q) && Used(q) && SameBulk(p, q)
  {
    var q := Grow(p);
    assert forall x :: x != p.next ==> Chk(q, x) == Chk(p, x);
    forall t ensures UsedOf(q, t) == UsedOf(p, t) {
    }
  }

  /** `dma_buffer_grow` */
  lemma GrowCore(p: Pool, rs: seq<Rsrvd>)
    requires Core(p, rs) && p.tot < p.cfg.chkMax
    ensures Core(Grow(p), rs)
    ensures Index(p) ==> Index(Grow(p))
  {
    Open(p, rs);
    var q := Grow(p);
    Fresh(p, rs, p.next);
    GrowLists(p);
    GrowChunks(p);
    assert RefCounts(q, rs) by {
      forall i, c | 0 <= i < |rs| && c in rs[i].chks ensures HoldsChk(q, rs[i], c) {
        assert HoldsChk(p, rs[i], c);
      }
    }
    SameBulkKeeps(p, q);
    RegionsKept(p, q, rs);
    Close(q, rs);
  }

  lemma CursorSame(p: Pool, c: ChunkId, idx: nat, cnt: nat)
    requires Chunks(p) && Chk(p, c).loc == OnUsed && idx + cnt <= p.cfg.chkSz
    ensures var q := Reserve(p, c, idx, cnt);
            SameLinks(p, q) && SameBulk(p, q) && Chunks(q) && forall x :: Chk(q, x).refs == Chk(p, x).refs
  {
  }

  /** `chunk_reserve` on a used chunk moves the cursor forward. */
  lemma CursorCore(p: Pool, rs: seq<Rsrvd>, c: ChunkId, idx: nat, cnt: nat)
    requires Core(p, rs) && Chk(p, c).loc == OnUsed && Chk(p, c).pgIdx <= idx + cnt <= p.cfg.chkSz
    ensures Core(Reserve(p, c, idx, cnt), rs)
    ensures Index(p) ==> Index(Reserve(p, c, idx, cnt))
  {
    Open(p, rs);
    var q := Reserve(p, c, idx, cnt);
    CursorSame(p, c, idx, cnt);
    SameLinksKeeps(p, q);
    SameBulkKeeps(p, q);
    RefsKept(p, q, rs);
    RegionsKept(p, q, rs);
    Close(q, rs);
  }

  /** A descriptor's entry changed, and no handle did. */
  lemma HoldersKept(p: Pool, rs: seq<Rsrvd>, i: nat, d: Rsrvd)
    requires i < |rs| && d.hdls == rs[i].hdls && Holders(p, rs)
    ensures Holders(p, rs[i := d])
  {
    forall h ensures HOcc(rs[i := d], h) == HOcc(rs, h) {
      HOccUpdate(rs, i, d, h);
    }
  }

  /** Regions stay in place when a descriptor only gains chunks. */
  lemma MoreChks(p: Pool, rs: seq<Rsrvd>, i: nat, d: Rsrvd)
    requires i < |rs| && Regions(p, rs) && Isolated(rs) && Kinds(rs)
    requires d.kind == rs[i].kind && d.regions == rs[i].regions && d.hdls == rs[i].hdls
    requires forall c :: c in rs[i].chks ==> c in d.chks
    ensures Regions(p, rs[i := d]) && Isolated(rs[i := d]) && Kinds(rs[i := d])
  {
    var rt := rs[i := d];
    forall a, k | 0 <= a < |rt| && 0 <= k < |rt[a].regions| ensures RegionOk(p, rt[a], rt[a].regions[k]) {
      assert RegionOk(p, rs[a], rs[a].regions[k]);
    }
  }

  lemma AddRefSame(p: Pool, c: ChunkId)
    requires Chunks(p) && Chk(p, c).loc == OnUsed
    ensures var q := AddRef(p, c); SameLinks(p, q) && SameBulk(p, q) && Chunks(q)
  {
  }

  /** `iod_add_chunk` of a used chunk. */
  lemma AddRefCore(p: Pool, rs: seq<Rsrvd>, i: nat, c: ChunkId)
    requires Core(p, rs) && i < |rs| && !rs[i].kind.bulk
    requires Chk(p, c).loc == OnUsed && Chk(p, c).ctype == rs[i].kind.ctype
    ensures Core(AddRef(p, c), rs[i := AddChk(rs[i], c)])
    ensures Index(p) ==> Index(AddRef(p, c))
  {
    Open(p, rs);
    var q := AddRef(p, c);
    var d := AddChk(rs[i], c);
    AddRefSame(p, c);
    SameLinksKeeps(p, q);
    SameBulkKeeps(p, q);
    AddOcc(p, rs, i, c);
    RegionsKept(p, q, rs);
    MoreChks(q, rs, i, d);
    HoldersKept(q, rs, i, d);
    Close(q, rs[i := d]);
  }

  /** The reference counts after `iod_add_chunk`. */
  lemma AddOcc(p: Pool, rs: seq<Rsrvd>, i: nat, c: ChunkId)
    requires RefCounts(p, rs) && i < |rs| && c in p.heap && HoldsChk(p, rs[i], c)
    ensures RefCounts(AddRef(p, c), rs[i := AddChk(rs[i], c)])
  {
    var q := AddRef(p, c);
    var rt := rs[i := AddChk(rs[i], c)];
    forall x | x in q.heap ensures q.heap[x].refs == Occ(rt, x) {
      OccUpdate(rs, i, rt[i], x);
    }
    forall a, x | 0 <= a < |rt| && x in rt[a].chks ensures HoldsChk(q, rt[a], x) {
      if !(a == i && x == c) {
        assert HoldsChk(p, rs[a], x);
      }
    }
  }

  /** A descriptor's entry changed, and neither its chunks nor its kind did. */
  lemma OccKept(p: Pool, rs: seq<Rsrvd>, i: nat, d: Rsrvd)
    requires i < |rs| && d.chks == rs[i].chks && d.kind == rs[i].kind && RefCounts(p, rs)
    ensures RefCounts(p, rs[i := d])
  {
    var rt := rs[i := d];
    forall x ensures Occ(rt, x) == Occ(rs, x) {
      OccUpdate(rs, i, d, x);
    }
    forall a, x | 0 <= a < |rt| && x in rt[a].chks ensures HoldsChk(p, rt[a], x) {
      assert HoldsChk(p, rs[a], x);
    }
  }

  /** The last region of descriptor i is new or has changed. */
  lemma RegionsLast(p: Pool, rs: seq<Rsrvd>, i: nat, d: Rsrvd, r: Region)
    requires i < |rs| && Regions(p, rs) && d.chks == rs[i].chks && d.hdls == rs[i].hdls && RegionOk(p, rs[i], r)
    requires d.regions == rs[i].regions + [r]
             || (rs[i].regions != [] && d.regions == rs[i].regions[|rs[i].regions| - 1 := r])
    ensures Regions(p, rs[i := d])
  {
    var rt := rs[i := d];
    forall a, k | 0 <= a < |rt| && 0 <= k < |rt[a].regions| ensures RegionOk(p, rt[a], rt[a].regions[k]) {
      if !(a == i && k == |d.regions| - 1) {
        assert RegionOk(p, rs[a], rs[a].regions[k]);
      }
    }
  }

  /** Region `r` overlaps no page of another descriptor and comes after the first n regions of descriptor i. */
  ghost predicate Free(rs: seq<Rsrvd>, i: nat, n: nat, r: Region)
    requires i < |rs| && n <= |rs[i].regions|
  {
    && (forall j, l :: 0 <= j < |rs| && j != i && 0 <= l < |rs[j].regions| ==> Apart(r, rs[j].regions[l]))
    && (forall k :: 0 <= k < n ==> Before(rs[i].regions[k], r))
  }

  /** A new last region that lies in its chunk, apart from the regions of the other descriptors and behind
      the descriptor's own. */
  lemma AddRegionCore(p: Pool, rs: seq<Rsrvd>, i: nat, r: Region)
    requires Core(p, rs) && i < |rs|
    requires RegionOk(p, rs[i], r) && (!rs[i].kind.bulk ==> r.hdl.None?)
    requires Free(rs, i, |rs[i].regions|, r)
    ensures Core(p, rs[i := AddRegion(rs[i], r)])
  {
    Open(p, rs);
    var d := AddRegion(rs[i], r);
    var rt := rs[i := d];
    OccKept(p, rs, i, d);
    RegionsLast(p, rs, i, d, r);
    IsolatedLast(rs, i, d, r);
    KindLast(rs, i, r);
    HoldersKept(p, rs, i, d);
    Close(p, rt);
  }

  lemma KindLast(rs: seq<Rsrvd>, i: nat, r: Region)
    requires i < |rs| && Kinds(rs) && Free(rs, i, |rs[i].regions|, r) && (!rs[i].kind.bulk ==> r.hdl.None?)
    ensures Kinds(rs[i := AddRegion(rs[i], r)])
  {
    assert KindOk(rs[i]);
    assert KindOk(AddRegion(rs[i], r));
  }

  /** The last region was replaced by a larger one. */
  lemma WidenCore(p: Pool, rs: seq<Rsrvd>, i: nat, r: Region)
    requires Core(p, rs) && i < |rs| && rs[i].regions != []
    requires RegionOk(p, rs[i], r) && (!rs[i].kind.bulk ==> r.hdl.None?)
    requires Free(rs, i, |rs[i].regions| - 1, r)
    ensures Core(p, rs[i := rs[i].(regions := rs[i].regions[|rs[i].regions| - 1 := r])])
  {
    Open(p, rs);
    var n := |rs[i].regions| - 1;
    var d := rs[i].(regions := rs[i].regions[n := r]);
    var rt := rs[i := d];
    OccKept(p, rs, i, d);
    RegionsLast(p, rs, i, d, r);
    IsolatedLast(rs, i, d, r);
    assert KindOk(d);
    HoldersKept(p, rs, i, d);
    Close(p, rt);
  }

  /** Descriptor i changed its regions only at its end: a last region `r` that is apart from all others
      keeps the pages of the descriptors apart. */
  lemma IsolatedLast(rs: seq<Rsrvd>, i: nat, d: Rsrvd, r: Region)
    requires i < |rs| && Isolated(rs)
    requires d.regions == rs[i].regions + [r]
             || (rs[i].regions != [] && d.regions == rs[i].regions[|rs[i].regions| - 1 := r])
    requires forall j, l :: 0 <= j < |rs| && j != i && 0 <= l < |rs[j].regions| ==> Apart(r, rs[j].regions[l])
    ensures Isolated(rs[i := d])
  {
    var rt := rs[i := d];
    forall a, b, k, l | 0 <= a < |rt| && 0 <= b < |rt| && a != b && 0 <= k < |rt[a].regions| && 0 <= l < |rt[b].regions|
      ensures Apart(rt[a].regions[k], rt[b].regions[l])
    {
      if a == i && k == |d.regions| - 1 {
        assert Apart(r, rs[b].regions[l]);
      } else if b == i && l == |d.regions| - 1 {
        assert Apart(r, rs[a].regions[k]);
      } else {
        assert rt[a].regions[k] == rs[a].regions[k] && rt[b].regions[l] == rs[b].regions[l];
      }
    }
  }

  lemma HugeLists(p: Pool, pages: nat, t: ChkType)
    requires Lists(p)
    ensures Lists(AllocHuge(p, pages, t)) && SameBut(p, AllocHuge(p, pages, t), p.next)
  {
    var q := AllocHuge(p, pages, t);
    assert p.next !in p.heap && Chk(p, p.next) == ZERO_CHUNK;
    assert forall x :: Chk(q, x).loc == Chk(p, x).loc;
    LinksKept(p, q);
  }

  lemma HugeChunks(p: Pool, pages: nat, t: ChkType)
    requires Chunks(p) && Used(p) && p.next !in p.heap && pages > p.cfg.chkSz
    ensures var q := AllocHuge(p, pages, t); Chunks(q) && Used(q) && SameBulk(p, q)
  {
    var q := AllocHuge(p, pages, t);
    assert forall x :: x != p.next ==> Chk(q, x) == Chk(p, x);
    forall u ensures UsedOf(q, u) == UsedOf(p, u) {
    }
  }

  /** References after chunk c, held by nobody before, joined the array of descriptor i. */
  lemma FirstRef(p: Pool, q: Pool, rs: seq<Rsrvd>, i: nat, c: ChunkId)
    requires RefCounts(p, rs) && i < |rs| && SameBut(p, q, c)
    requires forall j :: 0 <= j < |rs| ==> c !in rs[j].chks
    requires c in q.heap && q.heap[c].refs == 1 && HoldsChk(q, rs[i], c)
    ensures RefCounts(q, rs[i := AddChk(rs[i], c)])
  {
    var d := AddChk(rs[i], c);
    var rt := rs[i := d];
    OccNone(rs, c);
    forall x | x in q.heap ensures q.heap[x].refs == Occ(rt, x) {
      OccUpdate(rs, i, d, x);
      assert x != c ==> Chk(q, x) == Chk(p, x);
    }
    forall a, x | 0 <= a < |rt| && x in rt[a].chks ensures HoldsChk(q, rt[a], x) {
      if x != c {
        assert HoldsChk(p, rs[a], x);
      }
    }
  }

  /** A chunk nobody held joins the array of descriptor i; the lists are already right. */
  lemma NewRefCore(p: Pool, q: Pool, rs: seq<Rsrvd>, i: nat, c: ChunkId)
    requires Core(p, rs) && i < |rs| && Lists(q) && Chunks(q) && Used(q)
    requires SameBut(p, q, c) && SameBulk(p, q)
    requires forall j :: 0 <= j < |rs| ==> c !in rs[j].chks
    requires c in q.heap && q.heap[c].refs == 1 && HoldsChk(q, rs[i], c)
    ensures Core(q, rs[i := AddChk(rs[i], c)])
    ensures Index(p) ==> Index(q)
  {
    Open(p, rs);
    FirstRef(p, q, rs, i, c);
    SameBulkKeeps(p, q);
    RegionsKept(p, q, rs);
    MoreChks(q, rs, i, AddChk(rs[i], c));
    HoldersKept(q, rs, i, AddChk(rs[i], c));
    Close(q, rs[i := AddChk(rs[i], c)]);
  }

  /** A private chunk of `pages` pages joins the descriptor's chunk array. */
  lemma HugeCore(p: Pool, rs: seq<Rsrvd>, i: nat, pages: nat)
    requires Core(p, rs) && i < |rs| && pages > p.cfg.chkSz
    ensures Core(AllocHuge(p, pages, rs[i].kind.ctype), rs[i := AddChk(rs[i], p.next)])
    ensures Index(p) ==> Index(AllocHuge(p, pages, rs[i].kind.ctype))
    ensures forall j :: 0 <= j < |rs| ==> p.next !in rs[j].chks
  {
    Open(p, rs);
    var c := p.next;
    Fresh(p, rs, c);
    HugeLists(p, pages, rs[i].kind.ctype);
    HugeChunks(p, pages, rs[i].kind.ctype);
    NewRefCore(p, AllocHuge(p, pages, rs[i].kind.ctype), rs, i, c);
  }

  lemma TakeLists(p: Pool, t: ChkType)
    requires Lists(p) && p.idle != []
    ensures Lists(AddRef(TakeIdle(p, t), p.idle[0]))
  {
    var c := p.idle[0];
    assert c in p.idle;
    var q := AddRef(TakeIdle(p, t), c);
    assert forall x :: x != c ==> Chk(q, x) == Chk(p, x);
    assert Chk(p, c).loc == OnIdle && c !in p.used;
    NoDupTail(p.idle);
    NoDupAppend(p.used, c);
    forall g, x | 0 <= g < |q.grps| ensures x in q.grps[g].chks <==> Chk(q, x).loc == InGrp(g) {
      assert x in p.grps[g].chks <==> Chk(p, x).loc == InGrp(g);
    }
  }

  lemma TakeChunks(p: Pool, t: ChkType)
    requires Lists(p) && Chunks(p) && p.idle != []
    ensures var q := AddRef(TakeIdle(p, t), p.idle[0]);
            Chunks(q) && SameBut(p, q, p.idle[0]) && SameBulk(p, q)
  {
    var c := p.idle[0];
    assert c in p.idle && Chk(p, c).loc == OnIdle;
    var q := AddRef(TakeIdle(p, t), c);
    assert forall x :: x != c ==> Chk(q, x) == Chk(p, x);
  }

  /** Chunk c becomes a used chunk of type t. */
  lemma UsedMore(p: Pool, q: Pool, c: ChunkId, t: ChkType)
    requires Used(p) && SameBut(p, q, c) && c in q.heap
    requires Chk(p, c).loc != OnUsed && Chk(q, c).loc == OnUsed && Chk(q, c).ctype == t
    requires q.usedCnt == p.usedCnt[t := CntOf(p.usedCnt, t) + 1] && q.cur == p.cur[t := c]
    ensures Used(q)
  {
    forall u ensures CntOf(q.usedCnt, u) == |UsedOf(q, u)| {
      UsedSet(p, q, c, t, u);
    }
  }

  lemma UsedSet(p: Pool, q: Pool, c: ChunkId, t: ChkType, u: ChkType)
    requires SameBut(p, q, c) && c in q.heap
    requires Chk(p, c).loc != OnUsed && Chk(q, c).loc == OnUsed && Chk(q, c).ctype == t
    ensures UsedOf(q, u) == if u == t then UsedOf(p, u) + {c} else UsedOf(p, u)
    ensures c !in UsedOf(p, u)
  {
    forall x ensures x in UsedOf(q, u) <==> x in UsedOf(p, u) || (u == t && x == c) {
      assert x != c ==> Chk(q, x) == Chk(p, x);
    }
  }

  lemma TakeUsed(p: Pool, t: ChkType)
    requires Lists(p) && Chunks(p) && Used(p) && p.idle != []
    ensures Used(AddRef(TakeIdle(p, t), p.idle[0]))
  {
    var c := p.idle[0];
    assert c in p.idle;
    TakeChunks(p, t);
    UsedMore(p, AddRef(TakeIdle(p, t), c), c, t);
  }

  /** An idle chunk has no holder. */
  lemma IdleUnheld(p: Pool, rs: seq<Rsrvd>, c: ChunkId)
    requires Chk(p, c).loc == OnIdle && RefCounts(p, rs)
    ensures forall i :: 0 <= i < |rs| ==> c !in rs[i].chks
  {
    forall i | 0 <= i < |rs| ensures c !in rs[i].chks {
      assert c in rs[i].chks ==> HoldsChk(p, rs[i], c);
    }
  }

  /** The first idle chunk becomes a used chunk of the descriptor (`chunk_get_idle`, `iod_add_chunk`). */
  lemma TakeCore(p: Pool, rs: seq<Rsrvd>, i: nat)
    requires Core(p, rs) && i < |rs| && !rs[i].kind.bulk && p.idle != []
    ensures var q := AddRef(TakeIdle(p, rs[i].kind.ctype), p.idle[0]);
            Core(q, rs[i := AddChk(rs[i], p.idle[0])]) && (Index(p) ==> Index(q))
    ensures forall j :: 0 <= j < |rs| ==> p.idle[0] !in rs[j].chks
  {
    Open(p, rs);
    var c := p.idle[0];
    assert c in p.idle && Chk(p, c).loc == OnIdle && ChunkOk(p, p.heap[c]);
    IdleUnheld(p, rs, c);
    TakeLists(p, rs[i].kind.ctype);
    TakeChunks(p, rs[i].kind.ctype);
    TakeUsed(p, rs[i].kind.ctype);
    NewRefCore(p, AddRef(TakeIdle(p, rs[i].kind.ctype), c), rs, i, c);
  }
}
