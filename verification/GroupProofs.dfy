/** The group index of the bulk cache: `bulk_grp_get` agrees with a plain search, the sorted array stays a
    strictly increasing permutation of the live groups, and eviction touches idle chunks only. */
module GroupProofs {
  import opened BioTypes
  import opened SeqLib
  import opened Pool
  import opened PoolInv
  import opened ReserveProofs
  import opened BulkProofs
  import opened Rounding

  // ---------------------------------------------------------------------------------------------
  // Lists of slots ordered by size
  // ---------------------------------------------------------------------------------------------

  ghost predicate Increasing(s: seq<nat>, grps: seq<Group>) {
    forall i, j :: 0 <= i < j < |s| ==> PgsOf(grps, s[i]) < PgsOf(grps, s[j])
  }

  lemma {:induction false} InsertMembers(s: seq<nat>, g: nat, grps: seq<Group>)
    ensures |Insert(s, g, grps)| == |s| + 1
    ensures forall x :: x in Insert(s, g, grps) <==> x in s || x == g
  {
    if s != [] {
      InsertMembers(s[1..], g, grps);
      assert s == [s[0]] + s[1..];
    }
  }

  lemma {:induction false} InsertOrdered(s: seq<nat>, g: nat, grps: seq<Group>)
    requires Increasing(s, grps)
    requires forall i :: 0 <= i < |s| ==> PgsOf(grps, s[i]) != PgsOf(grps, g)
    ensures Increasing(Insert(s, g, grps), grps)
    ensures |Insert(s, g, grps)| == |s| + 1
    ensures forall x :: x in Insert(s, g, grps) <==> x in s || x == g
  {
    InsertMembers(s, g, grps);
    if s != [] && PgsOf(grps, g) > PgsOf(grps, s[0]) {
      var t := s[1..];
      InsertOrdered(t, g, grps);
      var r := Insert(t, g, grps);
      forall i | 0 <= i < |r| ensures PgsOf(grps, s[0]) < PgsOf(grps, r[i]) {
        assert r[i] in r;
        if r[i] in t {
          var k :| 0 <= k < |t| && t[k] == r[i];
          assert t[k] == s[k + 1];
        }
      }
    }
  }

  lemma {:induction false} RemoveOrdered(s: seq<nat>, g: nat, grps: seq<Group>)
    requires Increasing(s, grps)
    ensures Increasing(Remove<nat>(s, g), grps)
  {
    if s != [] {
      var t := s[1..];
      RemoveOrdered(t, g, grps);
      var r := Remove<nat>(t, g);
      forall i | 0 <= i < |r| ensures PgsOf(grps, s[0]) < PgsOf(grps, r[i]) {
        assert r[i] in r;
        var k :| 0 <= k < |t| && t[k] == r[i];
        assert t[k] == s[k + 1];
      }
    }
  }

  lemma IncreasingNoDup(s: seq<nat>, grps: seq<Group>)
    requires Increasing(s, grps)
    ensures NoDup(s)
  {
  }

  /** Whatever way the slots are sorted, the result is the same: two strictly increasing lists of the same slots
      are equal. */
  lemma {:induction false} SortedIsUnique(s: seq<nat>, t: seq<nat>, grps: seq<Group>)
    requires Increasing(s, grps) && Increasing(t, grps)
    requires forall x :: x in s <==> x in t
    ensures s == t
  {
    IncreasingNoDup(s, grps);
    IncreasingNoDup(t, grps);
    if s == [] {
      if t != [] {
        SomeMember(t);
      }
    } else {
      assert s[0] in t && t != [];
      assert t[0] in s;
      assert s[0] == t[0];
      NoDupTail(s);
      NoDupTail(t);
      SortedIsUnique(s[1..], t[1..], grps);
      assert s == [s[0]] + s[1..] && t == [t[0]] + t[1..];
    }
  }

  // ---------------------------------------------------------------------------------------------
  // Eviction and reclaiming
  // ---------------------------------------------------------------------------------------------

  /** Index and sizes are the same, so the index stays right. */
  lemma IndexKept(p: Pool, q: Pool)
    requires Index(p) && SameSizes(p, q) && q.sorted == p.sorted && q.lru == p.lru
    ensures Index(q)
  {
    forall g | 0 <= g < |q.grps| ensures q.grps[g].pgs == p.grps[g].pgs {
      assert Grp(q, g).pgs == Grp(p, g).pgs;
    }
  }

  lemma EvictSame(p: Pool, rs: seq<Rsrvd>, c: ChunkId)
    requires Core(p, rs) && Chk(p, c).loc.InGrp?
    ensures var q := EvictOne(p, c);
            SameSizes(p, q) && q.sorted == p.sorted && q.lru == p.lru && Evicted(p, q, c, Chk(p, c).loc.g)
  {
    Open(p, rs);
    EvictShape(p, c);
  }

  /** A chunk in the list of group g is in group g. */
  lemma InGroup(p: Pool, rs: seq<Rsrvd>, g: nat, c: ChunkId)
    requires Core(p, rs) && g < |p.grps|
    ensures c in p.grps[g].chks <==> Chk(p, c).loc == InGrp(g)
    ensures NoDup(p.grps[g].chks)
  {
    Open(p, rs);
  }

  /** `bulk_reclaim_chunk` */
  lemma ReclaimInv(p: Pool, rs: seq<Rsrvd>, ex: Option<nat>)
    requires Inv(p, rs)
    ensures Inv(Reclaim(p, ex).1, rs) && SameSizes(p, Reclaim(p, ex).1)
    ensures ex.Some? ==> Grp(Reclaim(p, ex).1, ex.value) == Grp(p, ex.value)
  {
    var v := Victim(p, p.lru, ex);
    if v.Some? {
      var c := v.value;
      var g :| g in p.lru && Some(g) != ex && c in Grp(p, g).chks && ChunkIdle(p, c);
      InGroup(p, rs, g, c);
      EvictCore(p, rs, c);
      EvictSame(p, rs, c);
      IndexKept(p, EvictOne(p, c));
    }
  }

  /** Making the idle list non-empty keeps everything in place. */
  lemma EnsureIdleInv(p: Pool, rs: seq<Rsrvd>, ex: Option<nat>, memOk: bool)
    requires Inv(p, rs)
    ensures Inv(EnsureIdle(p, ex, memOk).1, rs) && SameSizes(p, EnsureIdle(p, ex, memOk).1)
    ensures ex.Some? ==> Grp(EnsureIdle(p, ex, memOk).1, ex.value) == Grp(p, ex.value)
  {
    if p.idle == [] {
      if p.tot < p.cfg.chkMax && memOk {
        GrowCore(p, rs);
      } else {
        ReclaimInv(p, rs, ex);
      }
    }
  }

  lemma RemoveFirst<T(!new)>(s: seq<T>)
    requires NoDup(s) && s != []
    ensures Remove(s, s[0]) == s[1..]
  {
    assert s[0] !in s[1..];
  }

  /** Evicting the first chunk of an idle group leaves the rest of the group idle. */
  lemma EvictStep(p: Pool, rs: seq<Rsrvd>, g: nat)
    requires Core(p, rs) && g < |p.grps| && GrpIdle(p, g) && p.grps[g].chks != []
    ensures var q := EvictOne(p, p.grps[g].chks[0]);
            && Core(q, rs) && SameSizes(p, q) && q.sorted == p.sorted && q.lru == p.lru
            && GrpIdle(q, g) && q.grps[g].chks == p.grps[g].chks[1..]
  {
    var cs := p.grps[g].chks;
    var c := cs[0];
    assert c in cs;
    InGroup(p, rs, g, c);
    assert Grp(p, g) == p.grps[g] && ChunkIdle(p, c);
    EvictCore(p, rs, c);
    EvictSame(p, rs, c);
    var q := EvictOne(p, c);
    RemoveFirst(cs);
    assert q.grps[g].chks == cs[1..];
    forall x | x in q.grps[g].chks ensures ChunkIdle(q, x) {
      assert x in cs && x != c && ChunkIdle(p, x);
      assert Chk(q, x) == Chk(p, x);
    }
  }

  /** `bulk_grp_evict` of an idle group leaves it without chunks and without idle handles. */
  lemma {:induction false} EvictAllCore(p: Pool, rs: seq<Rsrvd>, g: nat)
    requires Core(p, rs) && g < |p.grps| && GrpIdle(p, g)
    ensures var q := EvictAll(p, p.grps[g].chks);
            && Core(q, rs) && SameSizes(p, q) && q.sorted == p.sorted && q.lru == p.lru
            && q.grps[g].chks == [] && q.grps[g].idleHdls == []
    decreases |p.grps[g].chks|
  {
    if p.grps[g].chks == [] {
      NoIdleHdls(p, rs, g);
    } else {
      EvictStep(p, rs, g);
      EvictAllCore(EvictOne(p, p.grps[g].chks[0]), rs, g);
    }
  }

  /** A group without chunks has no idle handles. */
  lemma NoIdleHdls(p: Pool, rs: seq<Rsrvd>, g: nat)
    requires Core(p, rs) && g < |p.grps| && p.grps[g].chks == []
    ensures p.grps[g].idleHdls == []
  {
    Open(p, rs);
    var hs := p.grps[g].idleHdls;
    forall h | h in hs ensures h.chk in p.grps[g].chks {
      assert IdleIn(p, g, h);
    }
    if hs != [] {
      SomeMember(hs);
    }
  }

  // ---------------------------------------------------------------------------------------------
  // Adding a group
  // ---------------------------------------------------------------------------------------------

  /** No live group has bulks of `pgs` pages. */
  ghost predicate NoSuch(p: Pool, pgs: nat) {
    forall g :: 0 <= g < |p.grps| ==> p.grps[g].pgs != pgs
  }

  /** The index after slot g joined it at the end of the LRU list and at its place in the sorted list. */
  lemma IndexJoin(q: Pool, sorted: seq<nat>, lru: seq<nat>, g: nat)
    requires |q.grps| <= q.cfg.grpMax && g < |q.grps|
    requires forall f :: 0 <= f < |q.grps| ==> 0 < q.grps[f].pgs <= q.cfg.chkSz
    requires forall f :: 0 <= f < |q.grps| && f != g ==> q.grps[f].pgs != q.grps[g].pgs
    requires NoDup(lru) && |lru| + 1 == |q.grps| && g !in lru && forall i :: 0 <= i < |lru| ==> lru[i] < |q.grps|
    requires |sorted| + 1 == |q.grps| && g !in sorted && forall i :: 0 <= i < |sorted| ==> sorted[i] < |q.grps|
    requires Increasing(sorted, q.grps)
    requires q.lru == lru + [g] && q.sorted == Insert(sorted, g, q.grps)
    ensures Index(q)
  {
    forall i | 0 <= i < |sorted| ensures PgsOf(q.grps, sorted[i]) != PgsOf(q.grps, g) {
      assert sorted[i] in sorted;
    }
    InsertOrdered(sorted, g, q.grps);
    IncreasingNoDup(q.sorted, q.grps);
    forall i | 0 <= i < |q.sorted| ensures q.sorted[i] < |q.grps| {
      assert q.sorted[i] in q.sorted;
    }
    NoDupAppend(lru, g);
  }

  /** A list of slots that holds every live slot once. */
  lemma SlotsMembers(p: Pool, s: seq<nat>)
    requires AllSlots(p, s)
    ensures forall g: nat :: g in s <==> g < |p.grps|
  {
    FullRange(s, |p.grps|);
    forall g: nat | g in s ensures g < |p.grps| {
      var i :| 0 <= i < |s| && s[i] == g;
    }
  }

  lemma IndexIncreasing(p: Pool)
    requires Index(p)
    ensures Increasing(p.sorted, p.grps)
  {
    forall i, j | 0 <= i < j < |p.sorted| ensures PgsOf(p.grps, p.sorted[i]) < PgsOf(p.grps, p.sorted[j]) {
      assert Grp(p, p.sorted[i]).pgs < Grp(p, p.sorted[j]).pgs;
    }
  }

  /** `bulk_grp_add` with a free slot, then the LRU move of `bulk_grp_get`. */
  lemma AddSlotInv(p: Pool, rs: seq<Rsrvd>, pgs: nat)
    requires Inv(p, rs) && NoSuch(p, pgs) && 0 < pgs <= p.cfg.chkSz && |p.grps| < p.cfg.grpMax
    ensures var q := Touch(GrpAdd(p, pgs).0, |p.grps|);
            Inv(q, rs) && |q.grps| == |p.grps| + 1 && q.grps[|p.grps|].pgs == pgs
  {
    var q := Touch(GrpAdd(p, pgs).0, |p.grps|);
    SlotAdded(p, q, pgs);
    RegroupCore(p, q, rs);
    AddSlotIndex(p, q, pgs);
  }

  /** A new group without chunks changes nothing for the chunks. */
  lemma SlotAdded(p: Pool, q: Pool, pgs: nat)
    requires q == p.(grps := p.grps + [Group(pgs, 0, [], [])], sorted := q.sorted, lru := q.lru)
    ensures Regrouped(p, q)
  {
    assert q.grps[..|p.grps|] == p.grps;
  }

  lemma AddSlotIndex(p: Pool, q: Pool, pgs: nat)
    requires Index(p) && NoSuch(p, pgs) && 0 < pgs <= p.cfg.chkSz && |p.grps| < p.cfg.grpMax && q.cfg == p.cfg
    requires q.grps == p.grps + [Group(pgs, 0, [], [])] && q.lru == Remove<nat>(p.lru, |p.grps|) + [|p.grps|]
    requires q.sorted == Insert(p.sorted, |p.grps|, q.grps)
    ensures Index(q)
  {
    SlotsMembers(p, p.lru);
    SlotsMembers(p, p.sorted);
    IndexIncreasing(p);
    forall i, j | 0 <= i < j < |p.sorted| ensures PgsOf(q.grps, p.sorted[i]) < PgsOf(q.grps, p.sorted[j]) {
      assert PgsOf(p.grps, p.sorted[i]) < PgsOf(p.grps, p.sorted[j]);
    }
    IndexJoin(q, p.sorted, p.lru, |p.grps|);
  }

  /** `bulk_grp_add` by replacing an idle group, then the LRU move of `bulk_grp_get`. */
  lemma ReplaceInv(p: Pool, rs: seq<Rsrvd>, pgs: nat)
    requires Inv(p, rs) && NoSuch(p, pgs) && 0 < pgs <= p.cfg.chkSz && |p.grps| >= p.cfg.grpMax
    requires FirstIdleGrp(p, p.lru).Some?
    ensures var g := FirstIdleGrp(p, p.lru).value;
            var q := Touch(GrpAdd(p, pgs).0, g);
            Inv(q, rs) && |q.grps| == |p.grps| && g < |p.grps| && q.grps[g].pgs == pgs
  {
    var g := FirstIdleGrp(p, p.lru).value;
    SlotsMembers(p, p.lru);
    SlotsMembers(p, p.sorted);
    EvictAllCore(p, rs, g);
    var m := EvictAll(p, p.grps[g].chks);
    var q := Touch(GrpAdd(p, pgs).0, g);
    assert q == Resized(m, g, pgs);
    ResizeCore(m, rs, g, pgs);
    forall f | 0 <= f < |p.grps| && f != g ensures q.grps[f].pgs == p.grps[f].pgs {
      assert Grp(m, f).pgs == Grp(p, f).pgs;
    }
    ReplaceIndex(p, q, g, pgs);
  }

  /** Group g, empty, gets a new size and its new places in the index. */
  function Resized(m: Pool, g: nat, pgs: nat): Pool
    requires g < |m.grps|
  {
    var grps := m.grps[g := m.grps[g].(pgs := pgs)];
    m.(grps := grps, lru := Remove<nat>(Remove<nat>(m.lru, g), g) + [g],
       sorted := Insert(Remove<nat>(m.sorted, g), g, grps))
  }

  lemma ResizeCore(m: Pool, rs: seq<Rsrvd>, g: nat, pgs: nat)
    requires Core(m, rs) && g < |m.grps| && m.grps[g].chks == []
    ensures Core(Resized(m, g, pgs), rs)
  {
    var q := Resized(m, g, pgs);
    SumUpdate(m.grps, g, q.grps[g]);
    RegroupCore(m, q, rs);
  }

  lemma ReplaceIndex(p: Pool, q: Pool, g: nat, pgs: nat)
    requires Index(p) && NoSuch(p, pgs) && 0 < pgs <= p.cfg.chkSz && g < |p.grps|
    requires q.cfg == p.cfg && |q.grps| == |p.grps| && q.grps[g].pgs == pgs
    requires forall f :: 0 <= f < |p.grps| && f != g ==> q.grps[f].pgs == p.grps[f].pgs
    requires q.lru == Remove<nat>(p.lru, g) + [g] && q.sorted == Insert(Remove<nat>(p.sorted, g), g, q.grps)
    ensures Index(q)
  {
    SlotsMembers(p, p.lru);
    SlotsMembers(p, p.sorted);
    IndexIncreasing(p);
    var sorted := Remove<nat>(p.sorted, g);
    var lru := Remove<nat>(p.lru, g);
    RemoveOrdered(p.sorted, g, p.grps);
    forall i | 0 <= i < |sorted| ensures sorted[i] < |q.grps| && PgsOf(q.grps, sorted[i]) == PgsOf(p.grps, sorted[i]) {
      assert sorted[i] in sorted;
    }
    forall i | 0 <= i < |lru| ensures lru[i] < |q.grps| {
      assert lru[i] in lru;
    }
    IndexJoin(q, sorted, lru, g);
  }

  // ---------------------------------------------------------------------------------------------
  // bulk_grp_get
  // ---------------------------------------------------------------------------------------------

  /** Binary search on the sorted index finds a group of size `pgs` exactly when one exists. */
  lemma FindExact(p: Pool, pgs: nat)
    requires Index(p)
    ensures var k := FindGe(p.sorted, p.grps, pgs);
            (k < |p.sorted| && Grp(p, p.sorted[k]).pgs == pgs) <==> !NoSuch(p, pgs)
  {
    var k := FindGe(p.sorted, p.grps, pgs);
    SlotsMembers(p, p.sorted);
    if k < |p.sorted| && Grp(p, p.sorted[k]).pgs == pgs {
      assert p.grps[p.sorted[k]].pgs == pgs;
    }
    if !NoSuch(p, pgs) {
      var g :| 0 <= g < |p.grps| && p.grps[g].pgs == pgs;
      assert g in p.sorted;
      var i :| 0 <= i < |p.sorted| && p.sorted[i] == g;
      assert i >= k;
      if i > k {
        assert Grp(p, p.sorted[k]).pgs < Grp(p, p.sorted[i]).pgs;
      }
    }
  }

  /** Moving a live group to the recently used end. */
  lemma TouchInv(p: Pool, rs: seq<Rsrvd>, g: nat)
    requires Inv(p, rs) && g < |p.grps|
    ensures Inv(Touch(p, g), rs)
  {
    SlotsMembers(p, p.lru);
    var q := Touch(p, g);
    RegroupCore(p, q, rs);
    var l := Remove<nat>(p.lru, g);
    NoDupAppend(l, g);
    forall i | 0 <= i < |q.lru| ensures q.lru[i] < |q.grps| {
      assert i < |l| ==> l[i] in l;
    }
    assert AllSlots(q, q.lru);
  }

  /** What `bulk_grp_get` promises about its result. */
  ghost predicate Got(p: Pool, q: Pool, og: Option<nat>, pgs: nat) {
    && q.cfg == p.cfg
    && (og.Some? ==> og.value < |q.grps| && q.grps[og.value].pgs == pgs)
    && (!NoSuch(p, pgs) ==> og.Some? && q.grps == p.grps && q.heap == p.heap)
    && (og.None? <==> NoSuch(p, pgs) && |p.grps| == p.cfg.grpMax
                      && forall g :: 0 <= g < |p.grps| ==> !GrpIdle(p, g))
  }

  /** `bulk_grp_get` when no group has the requested size. */
  lemma GrpAddInv(p: Pool, rs: seq<Rsrvd>, pgs: nat)
    requires Inv(p, rs) && 0 < pgs <= p.cfg.chkSz && NoSuch(p, pgs)
    ensures var (m, og) := GrpAdd(p, pgs);
            var q := if og.None? then m else Touch(m, og.value);
            Inv(q, rs) && Got(p, q, og, pgs)
  {
    SlotsMembers(p, p.lru);
    if |p.grps| < p.cfg.grpMax {
      AddSlotInv(p, rs, pgs);
    } else if FirstIdleGrp(p, p.lru).Some? {
      var g := FirstIdleGrp(p, p.lru).value;
      ReplaceInv(p, rs, pgs);
      assert 0 <= g < |p.grps| && GrpIdle(p, g);
      assert GrpAdd(p, pgs).1 == Some(g);
      EvictAllCfg(p, Grp(p, g).chks);
    } else {
      forall g | 0 <= g < |p.grps| ensures !GrpIdle(p, g) {
        assert g in p.lru;
      }
    }
  }

  lemma {:induction false} EvictAllCfg(p: Pool, cs: seq<ChunkId>)
    ensures EvictAll(p, cs).cfg == p.cfg
    decreases |cs|
  {
    if cs != [] {
      EvictAllCfg(EvictOne(p, cs[0]), cs[1..]);
    }
  }

  /** `bulk_grp_get` agrees with a plain search: it returns a group of exactly the requested size, the existing one
      without evicting anything if there is one; it returns none exactly when no group has that size, all slots are
      taken, and no group is idle. */
  lemma GrpGetInv(p: Pool, rs: seq<Rsrvd>, pgs: nat)
    requires Inv(p, rs) && 0 < pgs <= p.cfg.chkSz
    ensures Inv(GrpGet(p, pgs).0, rs) && Got(p, GrpGet(p, pgs).0, GrpGet(p, pgs).1, pgs)
  {
    SlotsMembers(p, p.lru);
    SlotsMembers(p, p.sorted);
    FindExact(p, pgs);
    var k := FindGe(p.sorted, p.grps, pgs);
    if p.lru != [] && Grp(p, Last(p.lru)).pgs == pgs {
      assert Last(p.lru) in p.lru;
      assert p.grps[Last(p.lru)].pgs == pgs;
    } else if p.lru != [] && k < |p.sorted| && Grp(p, p.sorted[k]).pgs == pgs {
      TouchInv(p, rs, p.sorted[k]);
    } else {
      assert NoSuch(p, pgs);
      GrpAddInv(p, rs, pgs);
    }
  }

  /** Populating the first idle chunk for group g. */
  lemma PopulateInv(p: Pool, rs: seq<Rsrvd>, g: nat, regOk: bool)
    requires Inv(p, rs) && g < |p.grps| && p.idle != [] && Populate(p, p.idle[0], g, regOk).0 == Ok
    ensures var q := MoveToGrp(Populate(p, p.idle[0], g, regOk).1, g);
            Inv(q, rs) && SameSizes(p, q) && q.grps[g].idleHdls != []
  {
    var c := p.idle[0];
    assert c in p.heap by { Open(p, rs); assert c in p.idle; }
    var q := MoveToGrp(Populate(p, c, g, regOk).1, g);
    PopulateShape(p, g, regOk);
    PopulateCore(p, q, rs, c, g);
    assert SameSizes(p, q);
    IndexKept(p, q);
    QuotientAtLeast(p.cfg.chkSz, p.grps[g].pgs, 1);
  }

  /** `bulk_grp_grow`: on success the group has an idle handle. */
  lemma GrpGrowInv(p: Pool, rs: seq<Rsrvd>, g: nat, memOk: bool, regOk: bool)
    requires Inv(p, rs) && g < |p.grps|
    ensures var (rc, q) := GrpGrow(p, g, memOk, regOk);
            Inv(q, rs) && SameSizes(p, q) && rc != Overflow && (rc == Ok ==> q.grps[g].idleHdls != [])
  {
    var (rc1, p1) := EnsureIdle(p, Some(g), memOk);
    EnsureIdleInv(p, rs, Some(g), memOk);
    if rc1 == Ok && Populate(p1, p1.idle[0], g, regOk).0 == Ok {
      PopulateInv(p1, rs, g, regOk);
    }
  }
}
