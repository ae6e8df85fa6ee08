/** Releasing everything a descriptor holds (`iod_release_buffer` with `bulk_iod_release`), and what the invariant says
    in terms of bytes. */
module ReleaseRun {
  import opened BioTypes
  import opened SeqLib
  import opened Pool
  import opened PoolInv
  import opened ReserveProofs
  import opened ReleaseProofs
  import opened MapProofs
  import opened BulkProofs
  import opened HandleProofs
  import opened GroupProofs
  import opened Mapping
  import opened Rounding

  /** `iod_release_buffer` first forgets the regions. */
  function Forget(d: Rsrvd): Rsrvd {
    d.(regions := [])
  }

  lemma ForgetInv(p: Pool, rs: seq<Rsrvd>, i: nat)
    requires Inv(p, rs) && i < |rs|
    ensures Inv(p, rs[i := Forget(rs[i])])
  {
    Open(p, rs);
    var d := Forget(rs[i]);
    FewerChks(p, rs, i, d);
    OccKept(p, rs, i, d);
    forall k ensures Hd(p, k).inuse == HOcc(rs[i := d], k) {
      HOccUpdate(rs, i, d, k);
    }
    Close(p, rs[i := d]);
  }

  lemma UnholdIndex(p: Pool, h: HdlRef)
    requires Index(p)
    ensures Index(Unhold(p, h))
  {
    assert SameSizes(p, Unhold(p, h));
    IndexKept(p, Unhold(p, h));
  }

  /** One round of the loop of `bulk_iod_release`. */
  lemma UnholdOneInv(p: Pool, rs: seq<Rsrvd>, i: nat)
    requires Inv(p, rs) && i < |rs| && rs[i].regions == [] && rs[i].hdls != []
    ensures var h := rs[i].hdls[0];
            Inv(if h.Some? then Unhold(p, h.value) else p, rs[i := PopHdl(rs[i])])
  {
    var h := rs[i].hdls[0];
    if h.Some? {
      UnholdCore(p, rs, i, h.value);
      UnholdIndex(p, h.value);
    } else {
      SkipCore(p, rs, i);
    }
  }

  lemma {:induction false} UnholdAllInv(p: Pool, rs: seq<Rsrvd>, i: nat)
    requires Inv(p, rs) && i < |rs| && rs[i].regions == []
    ensures Inv(UnholdAll(p, rs[i].hdls), rs[i := rs[i].(hdls := [])])
    decreases |rs[i].hdls|
  {
    if rs[i].hdls == [] {
      assert rs[i := rs[i].(hdls := [])] == rs;
    } else {
      UnholdOneInv(p, rs, i);
      var h := rs[i].hdls[0];
      var rt := rs[i := PopHdl(rs[i])];
      UnholdAllInv(if h.Some? then Unhold(p, h.value) else p, rt, i);
      assert rt[i := rt[i].(hdls := [])] == rs[i := rs[i].(hdls := [])];
    }
  }

  lemma {:induction false} DropRefsInv(p: Pool, rs: seq<Rsrvd>, i: nat)
    requires Inv(p, rs) && i < |rs| && rs[i].regions == []
    ensures Inv(DropRefs(p, rs[i].chks), rs[i := rs[i].(chks := [])])
    decreases |rs[i].chks|
  {
    if rs[i].chks == [] {
      assert rs[i := rs[i].(chks := [])] == rs;
    } else {
      DropRefInv(p, rs, i);
      var rt := rs[i := Pop(rs[i])];
      DropRefsInv(DropRef(p, rs[i].chks[0]), rt, i);
      assert rt[i := rt[i].(chks := [])] == rs[i := rs[i].(chks := [])];
    }
  }

  /** `iod_release_buffer` gives everything back: the descriptor holds nothing afterwards and the invariant is kept, so
      every reference and handle it had is gone from the counts and every other descriptor keeps what it holds. */
  lemma ReleaseInv(p: Pool, rs: seq<Rsrvd>, i: nat)
    requires Inv(p, rs) && i < |rs|
    ensures Inv(Release(p, rs[i]), rs[i := Empty(rs[i].kind)])
  {
    var d := rs[i];
    ForgetInv(p, rs, i);
    var r1 := rs[i := Forget(d)];
    UnholdAllInv(p, r1, i);
    var r2 := r1[i := Forget(d).(hdls := [])];
    DropRefsInv(UnholdAll(p, d.hdls), r2, i);
    assert r2[i := r2[i].(chks := [])] == rs[i := Empty(d.kind)];
  }

  // ---------------------------------------------------------------------------------------------
  // What the invariant means
  // ---------------------------------------------------------------------------------------------

  /** The bytes of two regions do not overlap. */
  predicate Disjoint(r: Region, q: Region) {
    r.chk == q.chk ==> r.Hi() <= q.Lo() || q.Hi() <= r.Lo()
  }

  /** No byte of DMA memory is in two regions, of one descriptor or of two. */
  lemma BytesDisjoint(p: Pool, rs: seq<Rsrvd>, i: nat, k: nat, j: nat, l: nat)
    requires Core(p, rs) && i < |rs| && k < |rs[i].regions| && j < |rs| && l < |rs[j].regions|
    requires i != j || k != l
    ensures Disjoint(rs[i].regions[k], rs[j].regions[l])
  {
    var r, q := rs[i].regions[k], rs[j].regions[l];
    RegionAt(p, rs, i, k);
    RegionAt(p, rs, j, l);
    RegionSpan(r);
    RegionSpan(q);
    Open(p, rs);
    if i != j {
      assert Apart(r, q);
    } else {
      assert KindOk(rs[i]);
      assert k < l ==> Before(r, q);
      assert l < k ==> Before(q, r);
    }
  }

  /** A region lies inside its chunk. */
  lemma BytesInside(p: Pool, rs: seq<Rsrvd>, i: nat, k: nat)
    requires Inv(p, rs) && i < |rs| && k < |rs[i].regions|
    ensures var r := rs[i].regions[k];
            r.chk in p.heap && 0 <= r.Lo() < r.Hi() <= p.heap[r.chk].pages * 4096
  {
    var r := rs[i].regions[k];
    RegionAt(p, rs, i, k);
    RegionSpan(r);
    Open(p, rs);
    assert RegionOk(p, rs[i], r);
    if r.hdl.None? {
      assert HoldsChk(p, rs[i], r.chk);
      assert ChunkOk(p, p.heap[r.chk]);
    } else {
      HandleInside(p, rs, i, r.hdl.value);
    }
  }

  /** The window of a held handle lies inside its chunk. */
  lemma HandleInside(p: Pool, rs: seq<Rsrvd>, i: nat, h: HdlRef)
    requires Inv(p, rs) && i < |rs| && Some(h) in rs[i].hdls
    ensures h.chk in p.heap && Hd(p, h).pgIdx * 4096 + HdlLen(p, h) <= p.heap[h.chk].pages * 4096
  {
    Open(p, rs);
    HeldLive(p, rs, i, h);
    assert ChunkOk(p, p.heap[h.chk]) && HdlOk(p, h);
    var g := p.heap[h.chk].loc.g;
    WindowsApart(p.cfg.chkSz, p.grps[g].pgs, h.idx, h.idx);
  }

  /** A used or idle chunk whose page cursor is zero carries no reservation, whoever made it. */
  lemma ResetIsSafe(p: Pool, rs: seq<Rsrvd>, c: ChunkId, i: nat, k: nat)
    requires Core(p, rs) && (Chk(p, c).loc.OnUsed? || Chk(p, c).loc.OnIdle?) && Chk(p, c).pgIdx == 0
    requires i < |rs| && k < |rs[i].regions|
    ensures rs[i].regions[k].chk != c
  {
    var r := rs[i].regions[k];
    RegionAt(p, rs, i, k);
    RegionSpan(r);
    Open(p, rs);
    assert RegionOk(p, rs[i], r);
    assert r.hdl.None? ==> HoldsChk(p, rs[i], r.chk);
    if r.hdl.Some? {
      HeldLive(p, rs, i, r.hdl.value);
    }
  }
}
