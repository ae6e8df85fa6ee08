/** Holding, sharing and unholding a cached bulk handle keep the invariant; handles that are held at the same
    time have disjoint windows, and extents that share a handle occupy adjacent bytes of its window. */
module HandleProofs {
  import opened BioTypes
  import opened SeqLib
  import opened Pool
  import opened PoolInv
  import opened ReserveProofs
  import opened ReleaseProofs
  import opened MapProofs

  /** Only handle h, the idle count of its chunk and the idle list of its group may differ. */
  ghost predicate Rehandled(p: Pool, q: Pool, h: HdlRef, g: nat) {
    && g < |p.grps| && h.chk in p.heap && p.heap[h.chk].loc == InGrp(g)
    && q == p.(heap := q.heap, hdls := q.hdls, grps := q.grps)
    && q.heap.Keys == p.heap.Keys
    && (forall x :: x != h.chk ==> Chk(q, x) == Chk(p, x))
    && Chk(q, h.chk) == Chk(p, h.chk).(bulkIdle := Chk(q, h.chk).bulkIdle)
    && (forall k :: k != h ==> Hd(q, k) == Hd(p, k))
    && Hd(q, h).pgIdx == Hd(p, h).pgIdx
    && |q.grps| == |p.grps|
    && q.grps == p.grps[g := p.grps[g].(idleHdls := q.grps[g].idleHdls)]
  }

  lemma RehandledLists(p: Pool, q: Pool, h: HdlRef, g: nat)
    requires Rehandled(p, q, h, g) && Lists(p)
    ensures Lists(q)
  {
    forall x ensures Chk(q, x).loc == Chk(p, x).loc {
    }
    SumUpdate(p.grps, g, q.grps[g]);
    forall f, x | 0 <= f < |q.grps| ensures x in q.grps[f].chks <==> Chk(q, x).loc == InGrp(f) {
      assert x in p.grps[f].chks <==> Chk(p, x).loc == InGrp(f);
    }
  }

  lemma RehandledChunks(p: Pool, q: Pool, h: HdlRef, g: nat)
    requires Rehandled(p, q, h, g) && Chunks(p) && Used(p)
    ensures Chunks(q) && Used(q)
    ensures forall k :: HdlLen(q, k) == HdlLen(p, k)
    ensures forall k :: Live(q, k) == Live(p, k)
  {
    forall f ensures Grp(q, f).pgs == Grp(p, f).pgs {
    }
    forall x ensures Chk(q, x) == Chk(p, x).(bulkIdle := Chk(q, x).bulkIdle) {
    }
    forall x | x in q.heap ensures ChunkOk(q, q.heap[x]) {
      assert ChunkOk(p, p.heap[x]);
      assert x != h.chk ==> Chk(q, x) == Chk(p, x);
    }
    forall t ensures UsedOf(q, t) == UsedOf(p, t) {
      forall x ensures x in UsedOf(q, t) <==> x in UsedOf(p, t) {
        assert Chk(q, x).loc == Chk(p, x).loc;
      }
    }
  }

  lemma RehandledRefs(p: Pool, q: Pool, rs: seq<Rsrvd>, i: nat, d: Rsrvd, h: HdlRef, g: nat)
    requires Rehandled(p, q, h, g) && RefCounts(p, rs) && i < |rs| && d.chks == rs[i].chks && d.kind == rs[i].kind
    ensures RefCounts(q, rs[i := d])
  {
    OccKept(p, rs, i, d);
    var rt := rs[i := d];
    forall x | x in q.heap ensures q.heap[x].refs == Occ(rt, x) {
      assert Chk(q, x) == Chk(p, x).(bulkIdle := Chk(q, x).bulkIdle);
    }
    forall a, x | 0 <= a < |rt| && x in rt[a].chks ensures HoldsChk(q, rt[a], x) {
      assert HoldsChk(p, rt[a], x);
      assert Chk(q, x) == Chk(p, x).(bulkIdle := Chk(q, x).bulkIdle);
    }
  }

  lemma RehandledHdls(p: Pool, q: Pool, h: HdlRef, g: nat)
    requires Rehandled(p, q, h, g) && HdlsOk(p) && HdlOk(q, h)
    ensures HdlsOk(q)
  {
    forall f ensures Grp(q, f).pgs == Grp(p, f).pgs {
    }
    forall k ensures HdlOk(q, k) {
      assert HdlOk(p, k);
      assert Chk(q, k.chk) == Chk(p, k.chk).(bulkIdle := Chk(q, k.chk).bulkIdle);
    }
  }

  /** Descriptor i with handle h appended to its array. */
  function Push(d: Rsrvd, h: HdlRef): Rsrvd {
    d.(hdls := d.hdls + [Some(h)])
  }

  /** The count of handle h goes up by one, and nobody else holds h. */
  lemma PushHolders(p: Pool, q: Pool, rs: seq<Rsrvd>, i: nat, h: HdlRef)
    requires Holders(p, rs) && i < |rs|
    requires forall k :: k != h ==> Hd(q, k) == Hd(p, k)
    requires Hd(q, h).inuse == Hd(p, h).inuse + 1
    requires forall j :: 0 <= j < |rs| && j != i ==> Some(h) !in rs[j].hdls
    ensures Holders(q, rs[i := Push(rs[i], h)])
  {
    var d := Push(rs[i], h);
    forall k ensures Hd(q, k).inuse == HOcc(rs[i := d], k) {
      HOccUpdate(rs, i, d, k);
    }
  }

  lemma PushKinds(rs: seq<Rsrvd>, i: nat, h: HdlRef)
    requires Kinds(rs) && Isolated(rs) && i < |rs| && rs[i].kind.bulk
    ensures Kinds(rs[i := Push(rs[i], h)]) && Isolated(rs[i := Push(rs[i], h)])
  {
    assert KindOk(rs[i]);
    assert KindOk(Push(rs[i], h));
  }

  // ---------------------------------------------------------------------------------------------
  // Holding an idle handle
  // ---------------------------------------------------------------------------------------------

  /** Buffer `q` is `p` after the idle handle h of group g was taken. */
  ghost predicate Taken(p: Pool, q: Pool, h: HdlRef, g: nat) {
    && Rehandled(p, q, h, g) && IdleIn(p, g, h)
    && Chk(q, h.chk).bulkIdle == Chk(p, h.chk).bulkIdle - 1
    && q.grps[g].idleHdls == Remove(p.grps[g].idleHdls, h)
    && Hd(q, h).inuse == 1 && HdlOk(q, h)
  }

  lemma TakenLists(p: Pool, q: Pool, h: HdlRef, g: nat)
    requires Taken(p, q, h, g) && IdleLists(p)
    ensures IdleLists(q)
  {
    forall f, k | 0 <= f < |q.grps| ensures k in q.grps[f].idleHdls <==> IdleIn(q, f, k) {
      assert k in p.grps[f].idleHdls <==> IdleIn(p, f, k);
      assert Chk(q, k.chk) == Chk(p, k.chk).(bulkIdle := Chk(q, k.chk).bulkIdle);
    }
  }

  /** Only whether handle h is idle may have changed. */
  lemma IdleIdxBut(p: Pool, q: Pool, h: HdlRef, g: nat)
    requires Rehandled(p, q, h, g)
    ensures forall x :: x != h.chk ==> IdleIdx(q, x) == IdleIdx(p, x)
    ensures IdleIdx(q, h.chk) - {h.idx} == IdleIdx(p, h.chk) - {h.idx}
  {
    forall x, n ensures n in IdleIdx(q, x) && HdlRef(x, n) != h <==> n in IdleIdx(p, x) && HdlRef(x, n) != h {
      assert Chk(q, x) == Chk(p, x).(bulkIdle := Chk(q, x).bulkIdle);
    }
    forall x | x != h.chk ensures IdleIdx(q, x) == IdleIdx(p, x) {
      forall n ensures n in IdleIdx(q, x) <==> n in IdleIdx(p, x) {
        assert HdlRef(x, n) != h;
      }
    }
  }

  lemma TakenCounts(p: Pool, q: Pool, h: HdlRef, g: nat)
    requires Taken(p, q, h, g) && IdleCounts(p)
    ensures IdleCounts(q)
  {
    IdleIdxBut(p, q, h, g);
    assert h == HdlRef(h.chk, h.idx) && h.idx in IdleIdx(p, h.chk) && h.idx !in IdleIdx(q, h.chk);
    assert IdleIdx(q, h.chk) == IdleIdx(p, h.chk) - {h.idx};
  }

  /** An idle handle has no holder. */
  lemma IdleFree(p: Pool, rs: seq<Rsrvd>, h: HdlRef)
    requires Holders(p, rs) && Hd(p, h).inuse == 0
    ensures forall j :: 0 <= j < |rs| ==> Some(h) !in rs[j].hdls
  {
    forall j | 0 <= j < |rs| ensures Some(h) !in rs[j].hdls {
      if Some(h) in rs[j].hdls {
        HOccHeld(rs, j, h);
      }
    }
  }

  /** Regions stay in place when a descriptor gains a handle, and handle h still covers its regions. */
  lemma PushRegions(p: Pool, q: Pool, rs: seq<Rsrvd>, i: nat, h: HdlRef, g: nat)
    requires Rehandled(p, q, h, g) && Chunks(p) && Used(p) && Regions(p, rs) && i < |rs|
    requires (forall j :: 0 <= j < |rs| ==> Some(h) !in rs[j].hdls)
             || (Hd(p, h).shareable && Hd(q, h).shareable && Hd(p, h).used <= Hd(q, h).used
                 && Hd(q, h).bulkOff == Hd(p, h).bulkOff)
    ensures Regions(q, rs[i := Push(rs[i], h)])
  {
    RehandledChunks(p, q, h, g);
    var rt := rs[i := Push(rs[i], h)];
    forall a, k | 0 <= a < |rt| && 0 <= k < |rt[a].regions| ensures RegionOk(q, rt[a], rt[a].regions[k]) {
      var r := rs[a].regions[k];
      assert RegionOk(p, rs[a], r);
      assert Chk(q, r.chk) == Chk(p, r.chk).(bulkIdle := Chk(q, r.chk).bulkIdle);
    }
  }

  lemma TakeHdlCore(p: Pool, q: Pool, rs: seq<Rsrvd>, i: nat, h: HdlRef, g: nat)
    requires Core(p, rs) && i < |rs| && rs[i].kind.bulk && Taken(p, q, h, g)
    ensures Core(q, rs[i := Push(rs[i], h)])
  {
    Open(p, rs);
    IdleFree(p, rs, h);
    RehandledLists(p, q, h, g);
    RehandledChunks(p, q, h, g);
    RehandledRefs(p, q, rs, i, Push(rs[i], h), h, g);
    RehandledHdls(p, q, h, g);
    TakenLists(p, q, h, g);
    TakenCounts(p, q, h, g);
    PushHolders(p, q, rs, i, h);
    PushKinds(rs, i, h);
    PushRegions(p, q, rs, i, h, g);
    Close(q, rs[i := Push(rs[i], h)]);
  }

  // ---------------------------------------------------------------------------------------------
  // Sharing the latest handle
  // ---------------------------------------------------------------------------------------------

  /** Buffer `q` is `p` after one more extent joined the shared handle h. */
  ghost predicate Joined(p: Pool, q: Pool, h: HdlRef, g: nat) {
    && Rehandled(p, q, h, g) && q.heap == p.heap && q.grps == p.grps
    && Hd(p, h).shareable && Hd(p, h).inuse > 0
    && Hd(q, h) == Hd(p, h).(inuse := Hd(p, h).inuse + 1, used := Hd(q, h).used)
    && Hd(p, h).used <= Hd(q, h).used <= HdlLen(p, h)
  }

  lemma JoinedIdle(p: Pool, q: Pool, h: HdlRef, g: nat)
    requires Joined(p, q, h, g) && IdleHandles(p)
    ensures IdleHandles(q)
  {
    assert HdlOk(p, h);
    assert HdlLen(q, h) == HdlLen(p, h);
    RehandledHdls(p, q, h, g);
    forall f, k | 0 <= f < |q.grps| ensures k in q.grps[f].idleHdls <==> IdleIn(q, f, k) {
      assert k in p.grps[f].idleHdls <==> IdleIn(p, f, k);
    }
    forall x ensures IdleIdx(q, x) == IdleIdx(p, x) {
    }
  }

  lemma JoinCore(p: Pool, q: Pool, rs: seq<Rsrvd>, i: nat, h: HdlRef, g: nat)
    requires Core(p, rs) && i < |rs| && rs[i].kind.bulk && Some(h) in rs[i].hdls && Joined(p, q, h, g)
    ensures Core(q, rs[i := Push(rs[i], h)])
  {
    Open(p, rs);
    RehandledLists(p, q, h, g);
    RehandledChunks(p, q, h, g);
    RehandledRefs(p, q, rs, i, Push(rs[i], h), h, g);
    JoinedIdle(p, q, h, g);
    PushHolders(p, q, rs, i, h);
    PushKinds(rs, i, h);
    PushRegions(p, q, rs, i, h, g);
    Close(q, rs[i := Push(rs[i], h)]);
  }

  // ---------------------------------------------------------------------------------------------
  // Unholding
  // ---------------------------------------------------------------------------------------------

  /** Descriptor d without the first entry of its handle array. */
  function PopHdl(d: Rsrvd): Rsrvd {
    if d.hdls == [] then d else d.(hdls := d.hdls[1..])
  }

  lemma PopHOcc(rs: seq<Rsrvd>, i: nat, k: HdlRef)
    requires i < |rs| && rs[i].hdls != []
    ensures HOcc(rs[i := PopHdl(rs[i])], k) == HOcc(rs, k) - (if Some(k) == rs[i].hdls[0] then 1 else 0)
  {
    HOccUpdate(rs, i, PopHdl(rs[i]), k);
    assert rs[i].hdls == [rs[i].hdls[0]] + rs[i].hdls[1..];
  }

  /** Buffer `q` is `p` after one hold on h was given back. */
  ghost predicate GivenBack(p: Pool, q: Pool, h: HdlRef, g: nat) {
    && Rehandled(p, q, h, g) && Hd(p, h).inuse > 0
    && Hd(q, h).inuse == Hd(p, h).inuse - 1 && HdlOk(q, h)
    && if Hd(p, h).inuse > 1
       then q.heap == p.heap && q.grps == p.grps
       else Chk(q, h.chk).bulkIdle == Chk(p, h.chk).bulkIdle + 1
            && q.grps[g].idleHdls == p.grps[g].idleHdls + [h]
  }

  lemma UnholdShape(p: Pool, h: HdlRef)
    requires Lists(p) && Chunks(p) && HdlsOk(p) && Live(p, h) && Hd(p, h).inuse > 0
    ensures GivenBack(p, Unhold(p, h), h, Chk(p, h.chk).loc.g)
  {
    assert ChunkOk(p, p.heap[h.chk]) && HdlOk(p, h);
    assert h.chk in p.grps[Chk(p, h.chk).loc.g].chks;
  }

  lemma GivenLists(p: Pool, q: Pool, h: HdlRef, g: nat)
    requires GivenBack(p, q, h, g) && IdleLists(p) && Live(p, h)
    ensures IdleLists(q)
  {
    assert h !in p.grps[g].idleHdls by { assert !IdleIn(p, g, h); }
    NoDupAppend(p.grps[g].idleHdls, h);
    forall f, k | 0 <= f < |q.grps| ensures k in q.grps[f].idleHdls <==> IdleIn(q, f, k) {
      assert k in p.grps[f].idleHdls <==> IdleIn(p, f, k);
      assert Chk(q, k.chk) == Chk(p, k.chk).(bulkIdle := Chk(q, k.chk).bulkIdle);
    }
  }

  lemma GivenCounts(p: Pool, q: Pool, h: HdlRef, g: nat)
    requires GivenBack(p, q, h, g) && IdleCounts(p) && Live(p, h)
    ensures IdleCounts(q)
  {
    IdleIdxBut(p, q, h, g);
    GivenIdx(p, q, h, g);
    forall x ensures Chk(q, x).bulkIdle == |IdleIdx(q, x)| {
      assert Chk(p, x).bulkIdle == |IdleIdx(p, x)|;
    }
  }

  lemma GivenIdx(p: Pool, q: Pool, h: HdlRef, g: nat)
    requires GivenBack(p, q, h, g) && Live(p, h)
    ensures h.idx !in IdleIdx(p, h.chk)
    ensures IdleIdx(q, h.chk) == if Hd(p, h).inuse > 1 then IdleIdx(p, h.chk) else IdleIdx(p, h.chk) + {h.idx}
  {
    var c := h.chk;
    assert Chk(q, c).bulkCnt == Chk(p, c).bulkCnt;
    forall n ensures n in IdleIdx(q, c) <==> n in IdleIdx(p, c) || (n == h.idx && Hd(p, h).inuse <= 1) {
      if n == h.idx {
        assert HdlRef(c, n) == h && n in Below(Chk(p, c).bulkCnt);
      } else {
        assert HdlRef(c, n) != h;
      }
    }
  }

  /** Regions of others are in other handles. */
  lemma PopRegions(p: Pool, q: Pool, rs: seq<Rsrvd>, i: nat, h: HdlRef, g: nat)
    requires Rehandled(p, q, h, g) && Chunks(p) && Used(p) && Regions(p, rs) && Holders(p, rs) && i < |rs|
    requires rs[i].hdls != [] && rs[i].hdls[0] == Some(h) && rs[i].regions == []
    ensures Regions(q, rs[i := PopHdl(rs[i])])
  {
    RehandledChunks(p, q, h, g);
    assert Some(h) in rs[i].hdls;
    var rt := rs[i := PopHdl(rs[i])];
    forall a, k | 0 <= a < |rt| && 0 <= k < |rt[a].regions| ensures RegionOk(q, rt[a], rt[a].regions[k]) {
      var r := rs[a].regions[k];
      assert RegionOk(p, rs[a], r);
      assert Chk(q, r.chk) == Chk(p, r.chk).(bulkIdle := Chk(q, r.chk).bulkIdle);
    }
  }

  lemma PopHolders(p: Pool, q: Pool, rs: seq<Rsrvd>, i: nat, h: HdlRef)
    requires Holders(p, rs) && i < |rs| && rs[i].hdls != [] && rs[i].hdls[0] == Some(h)
    requires forall k :: k != h ==> Hd(q, k) == Hd(p, k)
    requires Hd(q, h).inuse == Hd(p, h).inuse - 1
    ensures Holders(q, rs[i := PopHdl(rs[i])])
  {
    forall k ensures Hd(q, k).inuse == HOcc(rs[i := PopHdl(rs[i])], k) {
      PopHOcc(rs, i, k);
    }
  }

  lemma PopKinds(rs: seq<Rsrvd>, i: nat)
    requires Kinds(rs) && Isolated(rs) && i < |rs| && rs[i].hdls != []
    ensures Kinds(rs[i := PopHdl(rs[i])]) && Isolated(rs[i := PopHdl(rs[i])])
  {
    assert KindOk(rs[i]);
    assert KindOk(PopHdl(rs[i]));
  }

  /** One round of the loop of `bulk_iod_release` on a held handle. */
  lemma UnholdCore(p: Pool, rs: seq<Rsrvd>, i: nat, h: HdlRef)
    requires Core(p, rs) && i < |rs| && rs[i].regions == [] && rs[i].hdls != [] && rs[i].hdls[0] == Some(h)
    ensures Core(Unhold(p, h), rs[i := PopHdl(rs[i])])
  {
    Open(p, rs);
    assert Some(h) in rs[i].hdls;
    HeldLive(p, rs, i, h);
    var g := Chk(p, h.chk).loc.g;
    var q := Unhold(p, h);
    UnholdShape(p, h);
    RehandledLists(p, q, h, g);
    RehandledChunks(p, q, h, g);
    RehandledRefs(p, q, rs, i, PopHdl(rs[i]), h, g);
    RehandledHdls(p, q, h, g);
    GivenLists(p, q, h, g);
    GivenCounts(p, q, h, g);
    PopHolders(p, q, rs, i, h);
    PopKinds(rs, i);
    PopRegions(p, q, rs, i, h, g);
    Close(q, rs[i := PopHdl(rs[i])]);
  }

  /** The same for an entry that holds nothing. */
  lemma SkipCore(p: Pool, rs: seq<Rsrvd>, i: nat)
    requires Core(p, rs) && i < |rs| && rs[i].regions == [] && rs[i].hdls != [] && rs[i].hdls[0].None?
    ensures Core(p, rs[i := PopHdl(rs[i])])
  {
    Open(p, rs);
    var d := PopHdl(rs[i]);
    OccKept(p, rs, i, d);
    forall k ensures Hd(p, k).inuse == HOcc(rs[i := d], k) {
      PopHOcc(rs, i, k);
    }
    PopKinds(rs, i);
    var rt := rs[i := d];
    forall a, k | 0 <= a < |rt| && 0 <= k < |rt[a].regions| ensures RegionOk(p, rt[a], rt[a].regions[k]) {
      assert RegionOk(p, rs[a], rs[a].regions[k]);
    }
    Close(p, rt);
  }
}
