/** `iod_release_buffer` keeps the invariant: a chunk goes back to the idle list, and its cursor to zero, only
    when no live reservation is on it. */
module ReleaseProofs {
  import opened BioTypes
  import opened SeqLib
  import opened Pool
  import opened PoolInv
  import opened ReserveProofs

  /** Descriptor i without the first entry of its chunk array. */
  function Pop(d: Rsrvd): Rsrvd {
    if d.chks == [] then d else d.(chks := d.chks[1..])
  }

  /** What changes in the counts when the first entry goes. */
  lemma PopOcc(rs: seq<Rsrvd>, i: nat, x: ChunkId)
    requires i < |rs| && rs[i].chks != []
    ensures Occ(rs[i := Pop(rs[i])], x) == Occ(rs, x) - (if x == rs[i].chks[0] then 1 else 0)
  {
    OccUpdate(rs, i, Pop(rs[i]), x);
    assert rs[i].chks == [rs[i].chks[0]] + rs[i].chks[1..];
  }

  /** Without occurrences there is no holder. */
  lemma NoOcc(rs: seq<Rsrvd>, c: ChunkId)
    requires Occ(rs, c) == 0
    ensures forall j :: 0 <= j < |rs| ==> c !in rs[j].chks
  {
    forall j | 0 <= j < |rs| ensures c !in rs[j].chks {
      if c in rs[j].chks {
        OccHeld(rs, j, c);
      }
    }
  }

  /** A descriptor without regions may lose chunks. */
  lemma FewerChks(p: Pool, rs: seq<Rsrvd>, i: nat, d: Rsrvd)
    requires i < |rs| && Regions(p, rs) && Isolated(rs) && Kinds(rs)
    requires d.kind == rs[i].kind && d.regions == [] && (d.hdls == rs[i].hdls || d.hdls == [])
    ensures Regions(p, rs[i := d]) && Isolated(rs[i := d]) && Kinds(rs[i := d])
  {
    var rt := rs[i := d];
    forall a, k | 0 <= a < |rt| && 0 <= k < |rt[a].regions| ensures RegionOk(p, rt[a], rt[a].regions[k]) {
      assert RegionOk(p, rs[a], rs[a].regions[k]);
    }
    assert KindOk(d) by { assert KindOk(rs[i]); }
  }

  /** One round of the release loop takes one reference of chunk c and touches no other chunk. */
  lemma DropOne(p: Pool, c: ChunkId)
    requires c in p.heap && ChunkOk(p, p.heap[c]) && p.heap[c].refs > 0
    ensures var q := DropRef(p, c);
            && SameBut(p, q, c)
            && (c in q.heap ==> q.heap[c].refs == p.heap[c].refs - 1 && q.heap[c].ctype == p.heap[c].ctype)
            && (p.heap[c].refs > 1 ==> c in q.heap && q.heap[c].loc == p.heap[c].loc)
  {
  }

  /** The reference counts after one round of the release loop. */
  lemma DropOcc(p: Pool, rs: seq<Rsrvd>, i: nat)
    requires RefCounts(p, rs) && Chunks(p) && i < |rs| && rs[i].chks != []
    ensures RefCounts(DropRef(p, rs[i].chks[0]), rs[i := Pop(rs[i])])
  {
    var c := rs[i].chks[0];
    var q := DropRef(p, c);
    var rt := rs[i := Pop(rs[i])];
    assert c in rs[i].chks;
    assert HoldsChk(p, rs[i], c) && ChunkOk(p, p.heap[c]);
    OccHeld(rs, i, c);
    DropOne(p, c);
    forall x | x in q.heap ensures q.heap[x].refs == Occ(rt, x) {
      PopOcc(rs, i, x);
      assert x != c ==> Chk(q, x) == Chk(p, x);
    }
    PopOcc(rs, i, c);
    if Occ(rt, c) == 0 {
      NoOcc(rt, c);
    }
    forall a, x | 0 <= a < |rt| && x in rt[a].chks ensures HoldsChk(q, rt[a], x) {
      assert x in rs[a].chks;
      assert HoldsChk(p, rs[a], x);
      assert x != c ==> Chk(q, x) == Chk(p, x);
    }
  }

  lemma DropHugeLists(p: Pool, c: ChunkId)
    requires Lists(p) && Chunks(p) && Used(p) && c in p.heap && Chk(p, c).loc == Unlinked
    ensures var q := p.(heap := p.heap - {c});
            Lists(q) && Chunks(q) && Used(q) && SameBulk(p, q) && SameBut(p, q, c)
  {
    var q := p.(heap := p.heap - {c});
    assert ChunkOk(p, p.heap[c]);
    assert forall x :: Chk(q, x).loc == Chk(p, x).loc;
    assert Lists(q) by { LinksKept(p, q); }
    assert Used(q) by {
      forall t ensures UsedOf(q, t) == UsedOf(p, t) {
      }
    }
  }

  lemma DropHugeCore(p: Pool, rs: seq<Rsrvd>, i: nat)
    requires Core(p, rs) && i < |rs| && rs[i].chks != [] && rs[i].regions == []
    requires Chk(p, rs[i].chks[0]).loc == Unlinked
    ensures Core(DropRef(p, rs[i].chks[0]), rs[i := Pop(rs[i])])
    ensures Index(p) ==> Index(DropRef(p, rs[i].chks[0]))
  {
    Open(p, rs);
    var c := rs[i].chks[0];
    var q := DropRef(p, c);
    var d := Pop(rs[i]);
    var rt := rs[i := d];
    assert c in rs[i].chks;
    assert HoldsChk(p, rs[i], c) && ChunkOk(p, p.heap[c]);
    DropOcc(p, rs, i);
    DropHugeLists(p, c);
    SameBulkKeeps(p, q);
    PopOcc(rs, i, c);
    NoOcc(rt, c);
    FewerChks(p, rs, i, d);
    HoldersKept(p, rs, i, d);
    RegionsUnheld(p, q, rt, c);
    Close(q, rt);
  }

  /** Regions do not notice a change of a chunk that nobody holds. */
  lemma RegionsUnheld(p: Pool, q: Pool, rs: seq<Rsrvd>, c: ChunkId)
    requires Regions(p, rs) && SameBulk(p, q) && SameBut(p, q, c)
    requires forall j :: 0 <= j < |rs| ==> c !in rs[j].chks
    ensures Regions(q, rs)
  {
    forall i, k | 0 <= i < |rs| && 0 <= k < |rs[i].regions| ensures RegionOk(q, rs[i], rs[i].regions[k]) {
      var r := rs[i].regions[k];
      assert RegionOk(p, rs[i], r);
      if r.hdl.Some? {
        assert HdlLen(q, r.hdl.value) == HdlLen(p, r.hdl.value);
      }
    }
  }

  lemma DropSomeSame(p: Pool, c: ChunkId)
    requires Chunks(p) && Chk(p, c).loc == OnUsed && Chk(p, c).refs > 1
    ensures var q := DropRef(p, c); SameLinks(p, q) && SameBulk(p, q) && Chunks(q)
  {
  }

  lemma DropSomeCore(p: Pool, rs: seq<Rsrvd>, i: nat)
    requires Core(p, rs) && i < |rs| && rs[i].chks != [] && rs[i].regions == []
    requires Chk(p, rs[i].chks[0]).loc == OnUsed && Chk(p, rs[i].chks[0]).refs > 1
    ensures Core(DropRef(p, rs[i].chks[0]), rs[i := Pop(rs[i])])
    ensures Index(p) ==> Index(DropRef(p, rs[i].chks[0]))
  {
    Open(p, rs);
    var q := DropRef(p, rs[i].chks[0]);
    DropSomeBulk(p, rs, i);
    DropSomeRegions(p, rs, i);
    DropOcc(p, rs, i);
    HoldersKept(q, rs, i, Pop(rs[i]));
    Close(q, rs[i := Pop(rs[i])]);
  }

  lemma DropSomeBulk(p: Pool, rs: seq<Rsrvd>, i: nat)
    requires Parts(p, rs) && i < |rs| && rs[i].chks != []
    requires Chk(p, rs[i].chks[0]).loc == OnUsed && Chk(p, rs[i].chks[0]).refs > 1
    ensures var q := DropRef(p, rs[i].chks[0]);
            && q.cfg == p.cfg && Lists(q) && Chunks(q) && Used(q) && IdleHandles(q) && Holders(q, rs)
            && (Index(p) ==> Index(q))
  {
    var c := rs[i].chks[0];
    DropSomeSame(p, c);
    SameLinksKeeps(p, DropRef(p, c));
    SameBulkKeeps(p, DropRef(p, c));
  }

  lemma DropSomeRegions(p: Pool, rs: seq<Rsrvd>, i: nat)
    requires Parts(p, rs) && i < |rs| && rs[i].chks != [] && rs[i].regions == []
    requires Chk(p, rs[i].chks[0]).loc == OnUsed && Chk(p, rs[i].chks[0]).refs > 1
    ensures var q := DropRef(p, rs[i].chks[0]);
            var rt := rs[i := Pop(rs[i])];
            Regions(q, rt) && Isolated(rt) && Kinds(rt)
  {
    var q := DropRef(p, rs[i].chks[0]);
    DropSomeSame(p, rs[i].chks[0]);
    RegionsKept(p, q, rs);
    FewerChks(q, rs, i, Pop(rs[i]));
  }

  lemma DropLastLists(p: Pool, c: ChunkId)
    requires Lists(p) && Chk(p, c).loc == OnUsed && Chk(p, c).refs <= 1
    ensures Lists(DropRef(p, c)) && SameBut(p, DropRef(p, c), c)
  {
    var q := DropRef(p, c);
    assert forall x :: x != c ==> Chk(q, x) == Chk(p, x);
    assert c in p.used && c !in p.idle;
    NoDupAppend(p.idle, c);
    forall g, x | 0 <= g < |q.grps| ensures x in q.grps[g].chks <==> Chk(q, x).loc == InGrp(g) {
      assert x in p.grps[g].chks <==> Chk(p, x).loc == InGrp(g);
    }
  }

  lemma DropLastUsed(p: Pool, c: ChunkId)
    requires Chunks(p) && Used(p) && Chk(p, c).loc == OnUsed && Chk(p, c).refs <= 1
    ensures var q := DropRef(p, c); Chunks(q) && Used(q) && SameBulk(p, q)
  {
    var q := DropRef(p, c);
    assert forall x :: x != c ==> Chk(q, x) == Chk(p, x);
    assert Chunks(q) && SameBulk(p, q);
    forall u ensures CntOf(q.usedCnt, u) == |UsedOf(q, u)| {
      DropLastSet(p, c, u);
    }
  }

  lemma DropLastSet(p: Pool, c: ChunkId, u: ChkType)
    requires Chk(p, c).loc == OnUsed && Chk(p, c).refs <= 1
    ensures UsedOf(DropRef(p, c), u) == UsedOf(p, u) - {c}
    ensures c in UsedOf(p, u) <==> u == Chk(p, c).ctype
  {
    var q := DropRef(p, c);
    assert forall x :: x != c ==> Chk(q, x) == Chk(p, x);
  }

  lemma DropLastCore(p: Pool, rs: seq<Rsrvd>, i: nat)
    requires Core(p, rs) && i < |rs| && rs[i].chks != [] && rs[i].regions == []
    requires Chk(p, rs[i].chks[0]).loc == OnUsed && Chk(p, rs[i].chks[0]).refs <= 1
    ensures Core(DropRef(p, rs[i].chks[0]), rs[i := Pop(rs[i])])
    ensures Index(p) ==> Index(DropRef(p, rs[i].chks[0]))
  {
    Open(p, rs);
    var c := rs[i].chks[0];
    var q := DropRef(p, c);
    var d := Pop(rs[i]);
    var rt := rs[i := d];
    assert c in rs[i].chks;
    DropOcc(p, rs, i);
    DropLastLists(p, c);
    DropLastUsed(p, c);
    SameBulkKeeps(p, q);
    PopOcc(rs, i, c);
    NoOcc(rt, c);
    FewerChks(p, rs, i, d);
    HoldersKept(p, rs, i, d);
    RegionsUnheld(p, q, rt, c);
    Close(q, rt);
  }

  /** One round of the release loop. */
  lemma DropRefInv(p: Pool, rs: seq<Rsrvd>, i: nat)
    requires Inv(p, rs) && i < |rs| && rs[i].chks != [] && rs[i].regions == []
    ensures Inv(DropRef(p, rs[i].chks[0]), rs[i := Pop(rs[i])])
  {
    var c := rs[i].chks[0];
    assert Chk(p, c).loc == Unlinked || Chk(p, c).loc == OnUsed by {
      Open(p, rs);
      assert c in rs[i].chks;
      assert HoldsChk(p, rs[i], c);
    }
    if Chk(p, c).loc == Unlinked {
      DropHugeCore(p, rs, i);
    } else if Chk(p, c).refs > 1 {
      DropSomeCore(p, rs, i);
    } else {
      DropLastCore(p, rs, i);
    }
  }
}
