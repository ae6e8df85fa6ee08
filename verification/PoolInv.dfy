/** The invariant of the DMA buffer together with all descriptors that hold memory of it:
    conservation of chunks, references and handles, and isolation of reserved bytes.

    `rs[i]` is what descriptor i holds; a descriptor without a buffer holds `Empty`. */
module PoolInv {
  import opened BioTypes
  import opened Folding
  import opened SeqLib
  import opened Pool

  // ---------------------------------------------------------------------------------------------
  // Counting over all descriptors
  // ---------------------------------------------------------------------------------------------

  /** Occurrences of chunk `c` in the chunk arrays of all descriptors. */
  ghost function Occ(rs: seq<Rsrvd>, c: ChunkId): nat {
    if rs == [] then 0 else Occ(rs[..|rs| - 1], c) + multiset(rs[|rs| - 1].chks)[c]
  }

  /** Occurrences of handle `h` in the handle arrays of all descriptors. */
  ghost function HOcc(rs: seq<Rsrvd>, h: HdlRef): nat {
    if rs == [] then 0 else HOcc(rs[..|rs| - 1], h) + multiset(rs[|rs| - 1].hdls)[Some(h)]
  }

  /** Chunks owned by all bulk groups. */
  ghost function SumChks(grps: seq<Group>): nat {
    if grps == [] then 0 else SumChks(grps[..|grps| - 1]) + |grps[|grps| - 1].chks|
  }

  // ---------------------------------------------------------------------------------------------
  // The parts of the invariant
  // ---------------------------------------------------------------------------------------------

  /** Every chunk is on exactly the list its link says, lists do not repeat, and `bdb_tot_cnt` is the
      sum of the list lengths and within its bound. */
  ghost predicate Lists(p: Pool) {
    && NoDup(p.idle) && NoDup(p.used)
    && (forall c :: c in p.idle <==> Chk(p, c).loc == OnIdle)
    && (forall c :: c in p.used <==> Chk(p, c).loc == OnUsed)
    && (forall g :: 0 <= g < |p.grps| ==> NoDup(p.grps[g].chks) && p.grps[g].chkCnt == |p.grps[g].chks|)
    && (forall g, c :: 0 <= g < |p.grps| ==> (c in p.grps[g].chks <==> Chk(p, c).loc == InGrp(g)))
    && (forall c :: Chk(p, c).loc.InGrp? ==> Chk(p, c).loc.g < |p.grps|)
    && (forall c :: c in p.heap ==> c < p.next)
    && p.tot == |p.idle| + |p.used| + SumChks(p.grps)
    && p.tot <= p.cfg.chkMax
  }

  /** The fields of a chunk agree with the list it is on. */
  predicate ChunkOk(p: Pool, k: Chunk) {
    match k.loc
    case OnIdle => k.pages == p.cfg.chkSz && k.pgIdx == 0 && k.refs == 0 && k.grp.None? && k.bulkCnt == 0
      && k.bulkIdle == 0
    case OnUsed => k.pages == p.cfg.chkSz && k.pgIdx <= p.cfg.chkSz && k.refs > 0 && k.grp.None? && k.bulkCnt == 0
      && k.bulkIdle == 0
    case InGrp(g) => k.pages == p.cfg.chkSz && k.pgIdx == 0 && k.refs == 0 && k.grp == Some(g) && k.ctype == Io
                     && k.bulks && k.bulkCnt == PerChunk(p.cfg.chkSz, Grp(p, g).pgs)
    case Unlinked => k.pages > p.cfg.chkSz && k.pgIdx == 0 && k.refs == 1 && k.grp.None? && k.bulkCnt == 0
                     && k.bulkIdle == 0
  }

  ghost predicate Chunks(p: Pool) {
    forall c :: c in p.heap ==> ChunkOk(p, p.heap[c])
  }

  ghost function UsedOf(p: Pool, t: ChkType): set<ChunkId> {
    set c | c in p.heap && p.heap[c].loc == OnUsed && p.heap[c].ctype == t
  }

  /** `bdb_used_cnt[t]` counts the used chunks of type t, and `bdb_cur_chk[t]` is one of them. */
  ghost predicate Used(p: Pool) {
    && (forall t :: CntOf(p.usedCnt, t) == |UsedOf(p, t)|)
    && (forall t :: t in p.cur ==> Chk(p, p.cur[t]).loc == OnUsed && Chk(p, p.cur[t]).ctype == t)
  }

  predicate HoldsChk(p: Pool, d: Rsrvd, c: ChunkId) {
    && (Chk(p, c).loc.OnUsed? || Chk(p, c).loc.Unlinked?)
    && c in p.heap
    && Chk(p, c).ctype == d.kind.ctype
    && (d.kind.bulk ==> Chk(p, c).loc.Unlinked?)
  }

  /** `bdc_ref` is the number of occurrences over all chunk arrays, and chunk arrays hold used or huge
      chunks of the descriptor's type only, never a chunk of a bulk group. */
  ghost predicate RefCounts(p: Pool, rs: seq<Rsrvd>) {
    && (forall c :: c in p.heap ==> p.heap[c].refs == Occ(rs, c))
    && (forall i, c :: 0 <= i < |rs| && c in rs[i].chks ==> HoldsChk(p, rs[i], c))
  }

  /** A region lies below the cursor of its chunk, or inside its huge chunk, or inside the window of a
      handle its descriptor holds (within the bytes handed out so far, if the handle is shared).  In a
      huge chunk, too, it starts at one of the first `bio_chk_sz` pages. */
  ghost predicate RegionOk(p: Pool, d: Rsrvd, r: Region) {
    && r.Wf()
    && match r.hdl
       case None => r.chk in d.chks && r.pgIdx < p.cfg.chkSz
                    && r.HiPg() <= if Chk(p, r.chk).loc.OnUsed? then Chk(p, r.chk).pgIdx else Chk(p, r.chk).pages
       case Some(h) => Some(h) in d.hdls && h.chk == r.chk && r.pgIdx == Hd(p, h).pgIdx && r.reqOff == Hd(p, h).bulkOff
                       && r.Hi() <= r.pgIdx * 4096 + HdlLen(p, h)
                       && (Hd(p, h).shareable ==> r.media.Scm? && r.Hi() <= r.pgIdx * 4096 + Hd(p, h).used)
  }

  ghost predicate Regions(p: Pool, rs: seq<Rsrvd>) {
    forall i, k :: 0 <= i < |rs| && 0 <= k < |rs[i].regions| ==> RegionOk(p, rs[i], rs[i].regions[k])
  }

  /** The pages of two regions of one chunk do not overlap. */
  predicate Apart(r: Region, q: Region) {
    r.chk == q.chk ==> r.HiPg() <= q.LoPg() || q.HiPg() <= r.LoPg()
  }

  /** No page is held by two descriptors. */
  ghost predicate Isolated(rs: seq<Rsrvd>) {
    forall i, j, k, l :: 0 <= i < |rs| && 0 <= j < |rs| && i != j
                         && 0 <= k < |rs[i].regions| && 0 <= l < |rs[j].regions|
                         ==> Apart(rs[i].regions[k], rs[j].regions[l])
  }

  /** The bytes of an earlier region come before those of a later one of the same chunk; two regions in
      cached handles may come in either order. */
  predicate Before(r: Region, q: Region) {
    r.chk == q.chk ==> r.Hi() <= q.Lo() || (r.hdl.Some? && q.Hi() <= r.Lo())
  }

  /** No byte is held by two regions of one descriptor. */
  ghost predicate Ordered(d: Rsrvd) {
    forall k, l :: 0 <= k < l < |d.regions| ==> Before(d.regions[k], d.regions[l])
  }

  /** A descriptor uses handles only in bulk mode. */
  ghost predicate KindOk(d: Rsrvd) {
    && (!d.kind.bulk ==> d.hdls == [] && forall k :: 0 <= k < |d.regions| ==> d.regions[k].hdl.None?)
    && (d.kind.bulk ==> d.kind.rdma && d.kind.ctype == Io)
    && Ordered(d)
  }

  ghost predicate Kinds(rs: seq<Rsrvd>) {
    forall i :: 0 <= i < |rs| ==> KindOk(rs[i])
  }

  /** The unused handles of a chunk. */
  ghost function IdleIdx(p: Pool, c: ChunkId): set<nat> {
    set n | n in Below(Chk(p, c).bulkCnt) && Hd(p, HdlRef(c, n)).inuse == 0
  }

  /** A handle that belongs to a populated chunk of a group. */
  predicate Live(p: Pool, h: HdlRef) {
    Chk(p, h.chk).loc.InGrp? && h.idx < Chk(p, h.chk).bulkCnt
  }

  predicate HdlOk(p: Pool, h: HdlRef) {
    var hd := Hd(p, h);
    && (Live(p, h) ==> hd.pgIdx == Grp(p, Chk(p, h.chk).loc.g).pgs * h.idx)
    && (hd.inuse == 0 ==> hd.used == 0 && hd.bulkOff == 0 && !hd.shareable)
    && (hd.inuse > 0 ==> Live(p, h) && hd.bulkOff < HdlLen(p, h))
    && (hd.shareable ==> hd.bulkOff == 0 && 0 < hd.used <= HdlLen(p, h))
    && (!hd.shareable ==> hd.used == 0 && hd.inuse <= 1)
  }

  /** `bbh_inuse` is the number of occurrences over all handle arrays, and a handle has one holder. */
  ghost predicate Holders(p: Pool, rs: seq<Rsrvd>) {
    && (forall h :: Hd(p, h).inuse == HOcc(rs, h))
    && (forall i, j, h :: 0 <= i < |rs| && 0 <= j < |rs| && i != j && Some(h) in rs[i].hdls ==> Some(h) !in rs[j].hdls)
  }

  ghost predicate HdlsOk(p: Pool) {
    forall h :: HdlOk(p, h)
  }

  /** Handle h is an unused handle of group g. */
  predicate IdleIn(p: Pool, g: nat, h: HdlRef) {
    Chk(p, h.chk).loc == InGrp(g) && Live(p, h) && Hd(p, h).inuse == 0
  }

  /** A group's idle list is exactly the unused handles of its chunks. */
  ghost predicate IdleLists(p: Pool) {
    && (forall g :: 0 <= g < |p.grps| ==> NoDup(p.grps[g].idleHdls))
    && (forall g, h :: 0 <= g < |p.grps| ==> (h in p.grps[g].idleHdls <==> IdleIn(p, g, h)))
  }

  /** `bdc_bulk_idle` counts the unused handles of the chunk. */
  ghost predicate IdleCounts(p: Pool) {
    forall c :: Chk(p, c).bulkIdle == |IdleIdx(p, c)|
  }

  ghost predicate IdleHandles(p: Pool) {
    HdlsOk(p) && IdleLists(p) && IdleCounts(p)
  }

  /** Slots that occur once each and are all live. */
  ghost predicate AllSlots(p: Pool, gs: seq<nat>) {
    NoDup(gs) && |gs| == |p.grps| && forall i :: 0 <= i < |gs| ==> gs[i] < |p.grps|
  }

  /** `bbc_sorted` is a strictly increasing permutation of the live groups and the LRU list holds
      exactly those groups. */
  ghost predicate Index(p: Pool) {
    && |p.grps| <= p.cfg.grpMax
    && (forall g :: 0 <= g < |p.grps| ==> 0 < p.grps[g].pgs <= p.cfg.chkSz)
    && AllSlots(p, p.sorted) && AllSlots(p, p.lru)
    && (forall i, j :: 0 <= i < j < |p.sorted| ==> Grp(p, p.sorted[i]).pgs < Grp(p, p.sorted[j]).pgs)
  }

  /** Everything but the group index. */
  ghost predicate Parts(p: Pool, rs: seq<Rsrvd>) {
    && p.cfg.Valid()
    && Lists(p) && Chunks(p) && Used(p)
    && RefCounts(p, rs) && Regions(p, rs) && Isolated(rs) && Kinds(rs)
    && Holders(p, rs) && IdleHandles(p)
  }

  /** The same as `Parts`, folded: the verifier sees the parts only after `Open`. */
  ghost predicate Core(p: Pool, rs: seq<Rsrvd>) {
    forall x {:trigger Look(x)} :: Look(x) ==> Parts(p, rs)
  }

  lemma Open(p: Pool, rs: seq<Rsrvd>)
    requires Core(p, rs)
    ensures Parts(p, rs)
  {
    assert Look(0);
  }

  lemma Close(p: Pool, rs: seq<Rsrvd>)
    requires Parts(p, rs)
    ensures Core(p, rs)
  {
  }

  ghost predicate Inv(p: Pool, rs: seq<Rsrvd>) {
    Core(p, rs) && Index(p)
  }

  // ---------------------------------------------------------------------------------------------
  // Counting lemmas
  // ---------------------------------------------------------------------------------------------

  lemma {:induction false} OccUpdate(rs: seq<Rsrvd>, i: nat, d: Rsrvd, c: ChunkId)
    requires i < |rs|
    ensures Occ(rs[i := d], c) == Occ(rs, c) - multiset(rs[i].chks)[c] + multiset(d.chks)[c]
    ensures Occ(rs, c) >= multiset(rs[i].chks)[c]
  {
    var n := |rs| - 1;
    if i == n {
      assert rs[i := d][..n] == rs[..n];
    } else {
      OccUpdate(rs[..n], i, d, c);
      assert rs[i := d][..n] == rs[..n][i := d];
    }
  }

  lemma {:induction false} HOccUpdate(rs: seq<Rsrvd>, i: nat, d: Rsrvd, h: HdlRef)
    requires i < |rs|
    ensures HOcc(rs[i := d], h) == HOcc(rs, h) - multiset(rs[i].hdls)[Some(h)] + multiset(d.hdls)[Some(h)]
    ensures HOcc(rs, h) >= multiset(rs[i].hdls)[Some(h)]
  {
    var n := |rs| - 1;
    if i == n {
      assert rs[i := d][..n] == rs[..n];
    } else {
      HOccUpdate(rs[..n], i, d, h);
      assert rs[i := d][..n] == rs[..n][i := d];
    }
  }

  lemma {:induction false} OccNone(rs: seq<Rsrvd>, c: ChunkId)
    requires forall i :: 0 <= i < |rs| ==> c !in rs[i].chks
    ensures Occ(rs, c) == 0
  {
    if rs != [] {
      OccNone(rs[..|rs| - 1], c);
    }
  }

  lemma {:induction false} HOccNone(rs: seq<Rsrvd>, h: HdlRef)
    requires forall i :: 0 <= i < |rs| ==> Some(h) !in rs[i].hdls
    ensures HOcc(rs, h) == 0
  {
    if rs != [] {
      HOccNone(rs[..|rs| - 1], h);
    }
  }

  lemma {:induction false} SumUpdate(grps: seq<Group>, g: nat, grp: Group)
    requires g < |grps|
    ensures SumChks(grps[g := grp]) == SumChks(grps) - |grps[g].chks| + |grp.chks|
    ensures SumChks(grps) >= |grps[g].chks|
  {
    var n := |grps| - 1;
    if g == n {
      assert grps[g := grp][..n] == grps[..n];
    } else {
      SumUpdate(grps[..n], g, grp);
      assert grps[g := grp][..n] == grps[..n][g := grp];
    }
  }

  /** A held chunk has a reference. */
  lemma OccHeld(rs: seq<Rsrvd>, i: nat, c: ChunkId)
    requires i < |rs| && c in rs[i].chks
    ensures Occ(rs, c) > 0
  {
    OccUpdate(rs, i, rs[i], c);
  }

  lemma HOccHeld(rs: seq<Rsrvd>, i: nat, h: HdlRef)
    requires i < |rs| && Some(h) in rs[i].hdls
    ensures HOcc(rs, h) > 0
  {
    HOccUpdate(rs, i, rs[i], h);
  }

  /** A held handle belongs to a populated chunk of a group. */
  lemma HeldLive(p: Pool, rs: seq<Rsrvd>, i: nat, h: HdlRef)
    requires Holders(p, rs) && IdleHandles(p) && i < |rs| && Some(h) in rs[i].hdls
    ensures Live(p, h) && Hd(p, h).inuse > 0
  {
    HOccHeld(rs, i, h);
    assert HdlOk(p, h);
  }
}
