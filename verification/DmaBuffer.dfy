/** The DMA buffer in place: the loops and field updates of bio_buffer.c and bio_bulk.c, each proved to compute its
    meaning in Pool.dfy.

    `Abs` is the value of all fields.  Lists of chunks, groups and handles are sequences that the methods reassign; the
    chunks themselves are kept in `heap`. */
module DmaBuf {
  import opened BioTypes
  import opened SeqLib
  import opened Pool
  import opened PoolInv
  import opened BulkProofs
  import opened GroupProofs
  import opened Search
  import opened Rounding

  /** The number of successful allocations before the first failure. */
  function Granted(memOk: seq<bool>): nat {
    if memOk == [] || !memOk[0] then 0 else 1 + Granted(memOk[1..])
  }

  /** The handles of chunk c in the list have indices from i up to n. */
  ghost predicate Between(hs: seq<HdlRef>, c: ChunkId, i: nat, n: nat) {
    forall h :: h in hs && h.chk == c ==> i <= h.idx < n
  }

  /** The loop of `bulk_chunk_depopulate`: every handle of an idle chunk leaves the idle list of its group, on which it
      has to be. */
  method Unlink(idleHdls: seq<HdlRef>, c: ChunkId, n: nat) returns (hs: seq<HdlRef>)
    requires Between(idleHdls, c, 0, n) && forall k :: 0 <= k < n ==> HdlRef(c, k) in idleHdls
    ensures hs == DropChk(idleHdls, c)
  {
    hs := idleHdls;
    var i := 0;
    while i < n
      invariant 0 <= i <= n && Between(hs, c, i, n) && forall k :: i <= k < n ==> HdlRef(c, k) in hs
      invariant DropChk(hs, c) == DropChk(idleHdls, c)
    {
      assert HdlRef(c, i) in hs;
      DropRemove(hs, c, HdlRef(c, i));
      BetweenNext(hs, c, i, n);
      hs := Remove(hs, HdlRef(c, i));
      i := i + 1;
    }
    DropNone(hs, c);
  }

  lemma BetweenNext(hs: seq<HdlRef>, c: ChunkId, i: nat, n: nat)
    requires Between(hs, c, i, n)
    ensures Between(Remove(hs, HdlRef(c, i)), c, i + 1, n)
  {
    forall h | h in Remove(hs, HdlRef(c, i)) && h.chk == c ensures i + 1 <= h.idx < n {
      assert h in hs && h != HdlRef(c, i);
    }
  }

  /** What `bulk_chunk_is_idle` asserts. */
  predicate IdleAsserts(k: Chunk) {
    k.refs == 0 && k.pgIdx == 0 && k.bulks && k.bulkCnt >= k.bulkIdle
  }

  /** What `bulk_grp_reset` asserts about the lists of a group. */
  predicate Vacant(grp: Group) {
    grp.chks == [] && grp.idleHdls == [] && grp.chkCnt == 0
  }

  class DmaBuffer {
    const cfg: Config
    var next: ChunkId
    var heap: map<ChunkId, Chunk>
    var idle: seq<ChunkId>
    var used: seq<ChunkId>
    var cur: map<ChkType, ChunkId>
    var usedCnt: map<ChkType, nat>
    var tot: nat
    var hdls: map<HdlRef, Hdl>
    var grps: seq<Group>
    var sorted: seq<nat>
    var lru: seq<nat>

    /** `dma_buffer_create`, without its chunks. */
    constructor (cfg: Config)
      ensures Abs() == NewPool(cfg)
    {
      this.cfg := cfg;
      next, heap, idle, used, cur, usedCnt, tot := 0, map[], [], [], map[], map[], 0;
      hdls, grps, sorted, lru := map[], [], [], [];
    }

    function Abs(): Pool
      reads this
    {
      Pool(cfg, next, heap, idle, used, cur, usedCnt, tot, hdls, grps, sorted, lru)
    }

    function ChkOf(c: ChunkId): Chunk
      reads this
    {
      if c in heap then heap[c] else ZERO_CHUNK
    }

    /** `dma_buffer_grow`; `memOk` are the answers of the allocator. */
    method GrowBy(cnt: nat, memOk: seq<bool>) returns (ok: bool)
      requires |memOk| == cnt && tot + cnt <= cfg.chkMax
      modifies this
      ensures ok <==> Granted(memOk) == cnt
      ensures Abs() == GrowN(old(Abs()), Granted(memOk))
    {
      var i := 0;
      while i < cnt
        invariant 0 <= i <= cnt && Granted(memOk) == i + Granted(memOk[i..])
        invariant Abs() == GrowN(old(Abs()), i)
      {
        if !memOk[i] {
          return false;
        }
        heap := heap[next := NewChunk(cfg.chkSz, Io, OnIdle)];
        idle := idle + [next];
        next := next + 1;
        tot := tot + 1;
        i := i + 1;
      }
      return true;
    }

    /** `chunk_reserve`.  The requires are its assertions. */
    method ChunkReserve(c: ChunkId, idx: nat, cnt: nat) returns (ok: bool)
      requires !ChkOf(c).loc.Unlinked? ==> ChkOf(c).pgIdx <= cfg.chkSz
                                           && (idx == ChkOf(c).pgIdx || idx + 1 == ChkOf(c).pgIdx)
      modifies this`heap
      ensures ok <==> Fits(old(Abs()), c, idx, cnt)
      ensures Abs() == if ok then Reserve(old(Abs()), c, idx, cnt) else old(Abs())
    {
      var chk := ChkOf(c);
      if chk.loc.Unlinked? {
        return false;
      }
      if idx + cnt > cfg.chkSz {
        return false;
      }
      heap := heap[c := chk.(pgIdx := idx + cnt)];
      return true;
    }

    // -------------------------------------------------------------------------------------------
    // Eviction
    // -------------------------------------------------------------------------------------------

    /** `bulk_chunk_depopulate` without `fini`. */
    method Depopulate(c: ChunkId, ghost rs: seq<Rsrvd>)
      requires Core(Abs(), rs) && ChkOf(c).loc.InGrp? && ChunkIdle(Abs(), c)
      modifies this`grps, this`heap
      ensures var k := old(ChkOf(c));
              && k.loc.g < |old(grps)| && heap == old(heap)[c := k.(bulkCnt := 0, bulkIdle := 0, grp := None)]
              && grps == old(grps)[k.loc.g := old(grps)[k.loc.g].(idleHdls := DropChk(old(grps)[k.loc.g].idleHdls, c))]
    {
      EvictFacts(Abs(), rs, c);
      GroupChunk(Abs(), rs, c);
      IdleHandlesOf(Abs(), rs, c);
      var chk := heap[c];
      assert IdleAsserts(chk) && chk.bulkCnt == chk.bulkIdle;
      assert forall k :: 0 <= k < chk.bulkCnt ==> HdlIn(hdls, HdlRef(c, k)).inuse == 0;
      var g := chk.grp.value;
      var hs := Unlink(grps[g].idleHdls, c, chk.bulkCnt);
      grps := grps[g := grps[g].(idleHdls := hs)];
      heap := heap[c := chk.(bulkCnt := 0, bulkIdle := 0, grp := None)];
    }

    /** `bulk_grp_evict_one` without `fini`. */
    method EvictChunk(c: ChunkId, ghost rs: seq<Rsrvd>)
      requires Core(Abs(), rs) && ChkOf(c).loc.InGrp? && ChunkIdle(Abs(), c)
      modifies this`grps, this`heap, this`idle
      ensures Abs() == EvictOne(old(Abs()), c)
    {
      EvictFacts(Abs(), rs, c);
      var g := heap[c].grp.value;
      Depopulate(c, rs);
      assert grps[g].chkCnt > 0;
      grps, heap, idle := grps[g := grps[g].(chkCnt := grps[g].chkCnt - 1, chks := Remove<nat>(grps[g].chks, c))],
                          heap[c := heap[c].(loc := OnIdle)], idle + [c];
      assert heap == EvictOne(old(Abs()), c).heap;
      assert grps == EvictOne(old(Abs()), c).grps;
    }

    /** `bulk_grp_is_idle` */
    method GroupIsIdle(g: nat, ghost rs: seq<Rsrvd>) returns (r: bool)
      requires Core(Abs(), rs) && g < |grps|
      ensures r <==> GrpIdle(Abs(), g)
    {
      var cs := grps[g].chks;
      var i := 0;
      while i < |cs|
        invariant 0 <= i <= |cs|
        invariant forall k :: 0 <= k < i ==> ChunkIdle(Abs(), cs[k])
      {
        InGroup(Abs(), rs, g, cs[i]);
        GroupChunk(Abs(), rs, cs[i]);
        assert IdleAsserts(ChkOf(cs[i]));
        if ChkOf(cs[i]).bulkCnt != ChkOf(cs[i]).bulkIdle {
          assert cs[i] in Grp(Abs(), g).chks && !ChunkIdle(Abs(), cs[i]);
          return false;
        }
        i := i + 1;
      }
      return true;
    }

    /** `bulk_grp_evict` of an idle group. */
    method EvictGroup(g: nat, ghost rs: seq<Rsrvd>)
      requires Core(Abs(), rs) && g < |grps| && GrpIdle(Abs(), g)
      modifies this`grps, this`heap, this`idle
      ensures Abs() == EvictAll(old(Abs()), old(grps)[g].chks)
      ensures Core(Abs(), rs) && g < |grps| && grps[g].chks == [] && grps[g].idleHdls == [] && grps[g].chkCnt == 0
    {
      while grps[g].chks != []
        invariant g < |grps| && Core(Abs(), rs) && GrpIdle(Abs(), g)
        invariant EvictAll(Abs(), grps[g].chks) == EvictAll(old(Abs()), old(grps)[g].chks)
        decreases |grps[g].chks|
      {
        EvictStep(Abs(), rs, g);
        assert grps[g].chks[0] in Grp(Abs(), g).chks;
        InGroup(Abs(), rs, g, grps[g].chks[0]);
        EvictChunk(grps[g].chks[0], rs);
      }
      NoIdleHdls(Abs(), rs, g);
      EmptyGroup(Abs(), rs, g);
    }

    /** The inner loop of `bulk_reclaim_chunk`. */
    method FindIdleChunk(g: nat, ghost rs: seq<Rsrvd>) returns (r: Option<ChunkId>)
      requires Core(Abs(), rs) && g < |grps|
      ensures r == FirstIdle(Abs(), grps[g].chks)
    {
      var cs := grps[g].chks;
      var i := 0;
      while i < |cs|
        invariant 0 <= i <= |cs| && FirstIdle(Abs(), cs) == FirstIdle(Abs(), cs[i..])
      {
        assert cs[i..][1..] == cs[i + 1..];
        InGroup(Abs(), rs, g, cs[i]);
        GroupChunk(Abs(), rs, cs[i]);
        assert IdleAsserts(ChkOf(cs[i]));
        if ChkOf(cs[i]).bulkCnt == ChkOf(cs[i]).bulkIdle {
          return Some(cs[i]);
        }
        i := i + 1;
      }
      return None;
    }

    /** `bulk_reclaim_chunk` */
    method ReclaimChunk(ex: Option<nat>, ghost rs: seq<Rsrvd>) returns (rc: Rc)
      requires Inv(Abs(), rs)
      modifies this`grps, this`heap, this`idle
      ensures (rc, Abs()) == Reclaim(old(Abs()), ex)
    {
      var i := 0;
      while i < |lru|
        invariant 0 <= i <= |lru| && Abs() == old(Abs())
        invariant Victim(Abs(), lru, ex) == Victim(Abs(), lru[i..], ex)
      {
        assert lru[i..][1..] == lru[i + 1..];
        var g := lru[i];
        if Some(g) != ex {
          assert g < |grps|;
          var v := FindIdleChunk(g, rs);
          if v.Some? {
            InGroup(Abs(), rs, g, v.value);
            EvictChunk(v.value, rs);
            return Ok;
          }
        }
        i := i + 1;
      }
      return Again;
    }

    // -------------------------------------------------------------------------------------------
    // Groups
    // -------------------------------------------------------------------------------------------

    /** `bulk_grp_add` with a free slot. */
    method AddSlot(pgs: nat, ghost rs: seq<Rsrvd>) returns (g: nat)
      requires Inv(Abs(), rs) && NoSuch(Abs(), pgs) && |grps| < cfg.grpMax
      modifies this`grps, this`sorted
      ensures (Abs(), Some(g)) == GrpAdd(old(Abs()), pgs)
    {
      ghost var p := Abs();
      g := |grps|;
      grps := grps + [Group(pgs, 0, [], [])];
      SlotsMembers(p, p.sorted);
      NoDupAppend(sorted, g);
      RenewedDistinct(p, grps, g, pgs, sorted + [g]);
      var ok, r := SortSlots(sorted + [g], grps);
      assert ok;
      ResortIsInsert(p, grps, g, pgs, sorted + [g], r);
      sorted := r;
    }

    /** Idle group g leaves the LRU list and loses its chunks. */
    method VacateGroup(g: nat, ghost rs: seq<Rsrvd>)
      requires Inv(Abs(), rs) && g < |grps| && GrpIdle(Abs(), g)
      modifies this
      ensures Abs() == EvictAll(old(Abs()), old(grps)[g].chks).(lru := Remove<nat>(old(lru), g))
      ensures g < |grps| && Vacant(grps[g]) && g !in lru
    {
      ghost var p := Abs();
      lru := Remove<nat>(lru, g);
      RegroupCore(p, Abs(), rs);
      GrpIdleLru(p, lru, g);
      EvictAllLru(p, p.grps[g].chks, lru);
      EvictGroup(g, rs);
    }

    /** `bulk_grp_reset` of a vacated group, and the sort; p is the buffer before the group was vacated. */
    method ResizeGroup(g: nat, pgs: nat, ghost p: Pool)
      requires Index(p) && NoSuch(p, pgs) && g < |p.grps| == |grps| && sorted == p.sorted
      requires forall f :: 0 <= f < |p.grps| ==> grps[f].pgs == p.grps[f].pgs
      requires Vacant(grps[g]) && g !in lru
      modifies this`grps, this`sorted
      ensures grps == old(grps)[g := old(grps)[g].(pgs := pgs)]
      ensures sorted == Insert(Remove<nat>(p.sorted, g), g, grps)
    {
      SlotsMembers(p, p.sorted);
      grps := grps[g := grps[g].(pgs := pgs)];
      RenewedDistinct(p, grps, g, pgs, sorted);
      var ok, r := SortSlots(sorted, grps);
      assert ok;
      ResortIsInsert(p, grps, g, pgs, sorted, r);
      sorted := r;
    }

    /** `bulk_grp_add` by replacing idle group g. */
    method ReplaceGroup(g: nat, pgs: nat, ghost rs: seq<Rsrvd>)
      requires Inv(Abs(), rs) && NoSuch(Abs(), pgs) && |grps| >= cfg.grpMax && FirstIdleGrp(Abs(), lru) == Some(g)
      modifies this
      ensures (Abs(), Some(g)) == GrpAdd(old(Abs()), pgs)
    {
      ghost var p := Abs();
      SlotsMembers(p, p.lru);
      VacatedSizes(p, rs, g);
      GrpAddReplaces(p, pgs, g);
      VacateGroup(g, rs);
      ResizeGroup(g, pgs, p);
    }

    /** `bulk_grp_add` */
    method AddGroup(pgs: nat, ghost rs: seq<Rsrvd>) returns (og: Option<nat>)
      requires Inv(Abs(), rs) && NoSuch(Abs(), pgs)
      modifies this
      ensures (Abs(), og) == GrpAdd(old(Abs()), pgs)
    {
      if |grps| < cfg.grpMax {
        var g := AddSlot(pgs, rs);
        return Some(g);
      }
      SlotsMembers(Abs(), lru);
      GroupsFull(Abs(), rs);
      assert |grps| == cfg.grpMax && lru != [];
      var i := 0;
      while i < |lru|
        invariant 0 <= i <= |lru| && Abs() == old(Abs())
        invariant FirstIdleGrp(Abs(), lru) == FirstIdleGrp(Abs(), lru[i..])
      {
        assert lru[i] in lru && lru[i..][1..] == lru[i + 1..];
        var idleGrp := GroupIsIdle(lru[i], rs);
        if idleGrp {
          og := Some(lru[i]);
          ReplaceGroup(lru[i], pgs, rs);
          return;
        }
        i := i + 1;
      }
      return None;
    }

    /** The search of the sorted index in `bulk_grp_get`. */
    method FindSorted(pgs: nat) returns (og: Option<nat>)
      requires Index(Abs()) && lru != []
      ensures var k := FindGe(sorted, grps, pgs);
              og == if k < |sorted| && Grp(Abs(), sorted[k]).pgs == pgs then Some(sorted[k]) else None
    {
      SlotsMembers(Abs(), sorted);
      IndexIncreasing(Abs());
      var k := FindGroupGe(sorted, grps, pgs);
      if k >= 0 {
        assert sorted[k] in sorted && grps[sorted[k]].pgs >= pgs;
        if grps[sorted[k]].pgs == pgs {
          return Some(sorted[k]);
        }
      }
      return None;
    }

    /** The search of `bulk_grp_get`: the most recently used group, then the sorted index. */
    method FindGroup(pgs: nat) returns (og: Option<nat>)
      requires Index(Abs())
      ensures og.Some? <==> !NoSuch(Abs(), pgs)
      ensures og.Some? ==> && lru != [] && Grp(Abs(), og.value).pgs == pgs
                           && if Grp(Abs(), Last(lru)).pgs == pgs then og.value == Last(lru)
                              else FindGe(sorted, grps, pgs) < |sorted| && og.value == sorted[FindGe(sorted, grps, pgs)]
    {
      SlotsMembers(Abs(), lru);
      FindExact(Abs(), pgs);
      if lru == [] {
        return None;
      }
      var last := lru[|lru| - 1];
      assert last in lru && |grps| > 0;
      if grps[last].pgs == pgs {
        return Some(last);
      }
      og := FindSorted(pgs);
    }

    /** `bulk_grp_get` */
    method GetGroup(pgs: nat, ghost rs: seq<Rsrvd>) returns (og: Option<nat>)
      requires Inv(Abs(), rs)
      modifies this
      ensures (Abs(), og) == GrpGet(old(Abs()), pgs)
    {
      ghost var p := Abs();
      FindExact(p, pgs);
      og := FindGroup(pgs);
      if og.Some? {
        if lru[|lru| - 1] != og.value {
          lru := Remove<nat>(lru, og.value) + [og.value];
        }
        return;
      }
      og := AddGroup(pgs, rs);
      if og.Some? {
        lru := Remove<nat>(lru, og.value) + [og.value];
      }
    }

    // -------------------------------------------------------------------------------------------
    // Idle chunks and handles
    // -------------------------------------------------------------------------------------------

    /** What `chunk_get_idle` and `bulk_grp_grow` do to find an idle chunk: grow, or reclaim one from a group. */
    method MakeIdle(ex: Option<nat>, memOk: bool, ghost rs: seq<Rsrvd>) returns (rc: Rc)
      requires Inv(Abs(), rs)
      modifies this
      ensures (rc, Abs()) == EnsureIdle(old(Abs()), ex, memOk)
    {
      if idle != [] {
        return Ok;
      }
      if tot < cfg.chkMax {
        var ok := GrowBy(1, [memOk]);
        GrowOne(old(Abs()), memOk);
        if ok {
          return Ok;
        }
      }
      rc := ReclaimChunk(ex, rs);
    }

    /** `chunk_get_idle` and the set-up of the new chunk in `dma_map_one`. */
    method TakeIdleChunk(t: ChkType) returns (c: ChunkId)
      requires idle != []
      modifies this
      ensures c == old(idle)[0] && Abs() == TakeIdle(old(Abs()), t)
    {
      c := idle[0];
      idle := idle[1..];
      used := used + [c];
      heap := heap[c := ChkOf(c).(loc := OnUsed, ctype := t)];
      cur := cur[t := c];
      usedCnt := usedCnt[t := CntOf(usedCnt, t) + 1];
    }

    /** The loop of `bulk_chunk_populate`: the first n handles of chunk c get their windows and join the idle list. */
    method FillWindows(c: ChunkId, g: nat, n: nat)
      requires g < |grps| && forall h :: h in grps[g].idleHdls ==> h.chk != c
      modifies this`hdls, this`grps
      ensures hdls == SetWindows(old(hdls), c, old(grps)[g].pgs, n)
      ensures grps == old(grps)[g := old(grps)[g].(idleHdls := old(grps)[g].idleHdls + HdlRefs(c, n))]
    {
      ghost var was := grps[g].idleHdls;
      var i := 0;
      assert was + HdlRefs(c, 0) == was;
      while i < n
        invariant 0 <= i <= n && |grps| == |old(grps)|
        invariant hdls == SetWindows(old(hdls), c, old(grps)[g].pgs, i)
        invariant grps[g].idleHdls == was + HdlRefs(c, i)
        invariant grps == old(grps)[g := old(grps)[g].(idleHdls := grps[g].idleHdls)]
      {
        var h := HdlRef(c, i);
        NotLinked(was, c, i);
        assert h !in grps[g].idleHdls;
        assert HdlIn(hdls, h) == HdlIn(old(hdls), h);
        hdls := hdls[h := HdlIn(hdls, h).(pgIdx := grps[g].pgs * i)];
        assert was + HdlRefs(c, i) + [h] == was + HdlRefs(c, i + 1);
        grps := grps[g := grps[g].(idleHdls := grps[g].idleHdls + [h])];
        i := i + 1;
      }
    }

    /** `bulk_chunk_populate` of a chunk that is not in any group: it is idle, has no handles, and none of them is on a
        list. */
    method PopulateChunk(c: ChunkId, g: nat, regOk: bool) returns (rc: Rc)
      requires g < |grps| && 0 < grps[g].pgs <= cfg.chkSz && forall h :: h in grps[g].idleHdls ==> h.chk != c
      requires ChkOf(c).refs == 0 && ChkOf(c).pgIdx == 0 && ChkOf(c).bulkCnt == 0 == ChkOf(c).bulkIdle
      modifies this`heap, this`hdls, this`grps
      ensures (rc, Abs()) == Populate(old(Abs()), c, g, regOk)
    {
      var chk := ChkOf(c);
      if !chk.bulks && !regOk {
        return RegErr;
      }
      assert IdleAsserts(chk.(bulks := true)) && chk.bulkCnt == chk.bulkIdle == 0 && grps[g].pgs <= cfg.chkSz;
      var n := cfg.chkSz / grps[g].pgs;
      FillWindows(c, g, n);
      heap := heap[c := chk.(bulks := true, grp := Some(g), ctype := Io, bulkCnt := n, bulkIdle := n)];
      return Ok;
    }

    /** `bulk_grp_grow` */
    method GrowGroup(g: nat, memOk: bool, regOk: bool, ghost rs: seq<Rsrvd>) returns (rc: Rc)
      requires Inv(Abs(), rs) && g < |grps|
      modifies this
      ensures (rc, Abs()) == GrpGrow(old(Abs()), g, memOk, regOk)
    {
      ghost var p := Abs();
      EnsureIdleInv(p, rs, Some(g), memOk);
      rc := MakeIdle(Some(g), memOk, rs);
      if rc != Ok {
        return;
      }
      assert Grp(Abs(), g) == Grp(p, g);
      var c := idle[0];
      IdleUnpopulated(Abs(), rs, c, g);
      rc := PopulateChunk(c, g, regOk);
      if rc != Ok {
        return;
      }
      JoinGroup(g);
    }

    /** The first idle chunk moves to group g. */
    method JoinGroup(g: nat)
      requires g < |grps| && idle != []
      modifies this`idle, this`heap, this`grps
      ensures Abs() == MoveToGrp(old(Abs()), g)
    {
      var c := idle[0];
      idle, heap, grps := idle[1..], heap[c := ChkOf(c).(loc := InGrp(g))],
                          grps[g := grps[g].(chks := grps[g].chks + [c], chkCnt := grps[g].chkCnt + 1)];
    }

    /** `bulk_hdl_hold` of a handle that is not in use. */
    method HoldHdl(h: HdlRef, sgl: nat, e: Extent)
      requires ChkOf(h.chk).grp.Some? && ChkOf(h.chk).grp.value < |grps| && ChkOf(h.chk).bulkIdle > 0
      requires HdlIn(hdls, h).inuse == 0 && h in grps[ChkOf(h.chk).grp.value].idleHdls
      modifies this`heap, this`hdls, this`grps
      ensures Abs() == Hold(old(Abs()), h, sgl, e)
    {
      var chk := ChkOf(h.chk);
      var g := chk.grp.value;
      grps := grps[g := grps[g].(idleHdls := Remove(grps[g].idleHdls, h))];
      hdls := hdls[h := HdlIn(hdls, h).(inuse := 1, bulkOff := e.PgOff() + e.prefix, remote := sgl,
                                        shareable := !Exclusive(e))];
      heap := heap[h.chk := chk.(bulkIdle := chk.bulkIdle - 1)];
    }

    /** `bulk_hdl_unhold` */
    method UnholdHdl(h: HdlRef)
      requires HdlIn(hdls, h).inuse > 0 && ChkOf(h.chk).grp.Some? && ChkOf(h.chk).grp.value < |grps|
      requires ChkOf(h.chk).bulkIdle < ChkOf(h.chk).bulkCnt && h !in grps[ChkOf(h.chk).grp.value].idleHdls
      modifies this`heap, this`hdls, this`grps
      ensures Abs() == Unhold(old(Abs()), h)
    {
      var hd := HdlIn(hdls, h);
      hd := hd.(inuse := hd.inuse - 1);
      if hd.inuse == 0 {
        hd := hd.(bulkOff := 0, used := 0, shareable := false, remote := 0);
        var chk := ChkOf(h.chk);
        assert chk.bulkIdle < chk.bulkCnt;
        heap := heap[h.chk := chk.(bulkIdle := chk.bulkIdle + 1)];
        var g := chk.grp.value;
        grps := grps[g := grps[g].(idleHdls := grps[g].idleHdls + [h])];
      }
      hdls := hdls[h := hd];
    }

    /** The part of `bulk_get_hdl` that finds a group with an idle handle. */
    method FindIdleGroup(pgs: nat, memOk: bool, regOk: bool, ghost rs: seq<Rsrvd>) returns (rc: Rc, g: nat)
      requires Inv(Abs(), rs) && 0 < pgs <= cfg.chkSz
      modifies this
      ensures (rc, Abs(), g) == FindIdle(old(Abs()), pgs, memOk, regOk)
    {
      GrpGetInv(Abs(), rs, pgs);
      var og := GetGroup(pgs, rs);
      if og.None? {
        return Again, 0;
      }
      g := og.value;
      rc := Ok;
      if grps[g].idleHdls == [] {
        GrpGrowInv(Abs(), rs, g, memOk, regOk);
        rc := GrowGroup(g, memOk, regOk, rs);
      }
    }
  }

  lemma NotLinked(was: seq<HdlRef>, c: ChunkId, i: nat)
    requires forall h :: h in was ==> h.chk != c
    ensures HdlRef(c, i) !in was + HdlRefs(c, i)
  {
  }

  lemma GroupsFull(p: Pool, rs: seq<Rsrvd>)
    requires Inv(p, rs) && |p.grps| >= p.cfg.grpMax
    ensures |p.grps| == p.cfg.grpMax && p.lru != []
  {
    assert p.cfg.Valid() by { Open(p, rs); }
  }

  lemma GrowOne(p: Pool, memOk: bool)
    ensures GrowN(p, Granted([memOk])) == if memOk then Grow(p) else p
  {
    assert [memOk][1..] == [];
    assert GrowN(p, 0) == p;
  }

  /** Evicting the chunks of a group leaves the sizes and the index alone. */
  lemma VacatedSizes(p: Pool, rs: seq<Rsrvd>, g: nat)
    requires Core(p, rs) && g < |p.grps| && GrpIdle(p, g)
    ensures var q := EvictAll(p, p.grps[g].chks);
            && |q.grps| == |p.grps| && q.sorted == p.sorted && q.lru == p.lru
            && forall f :: 0 <= f < |p.grps| ==> q.grps[f].pgs == p.grps[f].pgs
  {
    EvictAllCore(p, rs, g);
    var q := EvictAll(p, p.grps[g].chks);
    forall f | 0 <= f < |p.grps| ensures q.grps[f].pgs == p.grps[f].pgs {
      assert Grp(q, f).pgs == Grp(p, f).pgs;
    }
  }

  /** What `bulk_grp_add` does when it replaces group g. */
  lemma GrpAddReplaces(p: Pool, pgs: nat, g: nat)
    requires |p.grps| >= p.cfg.grpMax && FirstIdleGrp(p, p.lru) == Some(g) && g < |p.grps|
    requires var q := EvictAll(p, p.grps[g].chks);
             |q.grps| == |p.grps| && q.sorted == p.sorted && q.lru == p.lru
    ensures var q := EvictAll(p, p.grps[g].chks);
            var grps := q.grps[g := q.grps[g].(pgs := pgs)];
            GrpAdd(p, pgs) == (q.(grps := grps, lru := Remove<nat>(p.lru, g),
                                  sorted := Insert(Remove<nat>(p.sorted, g), g, grps)), Some(g))
  {
  }

  lemma GrpIdleLru(p: Pool, lru: seq<nat>, g: nat)
    requires GrpIdle(p, g)
    ensures GrpIdle(p.(lru := lru), g)
  {
    forall c | c in Grp(p, g).chks ensures ChunkIdle(p.(lru := lru), c) {
      assert ChunkIdle(p, c);
    }
  }

  /** Eviction does not look at the LRU list. */
  lemma {:induction false} EvictAllLru(p: Pool, cs: seq<ChunkId>, lru: seq<nat>)
    ensures EvictAll(p.(lru := lru), cs) == EvictAll(p, cs).(lru := lru)
    decreases |cs|
  {
    if cs != [] {
      assert EvictOne(p.(lru := lru), cs[0]) == EvictOne(p, cs[0]).(lru := lru);
      EvictAllLru(EvictOne(p, cs[0]), cs[1..], lru);
    }
  }

  /** What is known about a chunk of a group. */
  lemma EvictFacts(p: Pool, rs: seq<Rsrvd>, c: ChunkId)
    requires Core(p, rs) && Chk(p, c).loc.InGrp?
    ensures c in p.heap && p.heap[c].grp == Some(p.heap[c].loc.g) && p.heap[c].loc.g < |p.grps|
    ensures var grp := p.grps[p.heap[c].loc.g];
            grp.chkCnt > 0 && Between(grp.idleHdls, c, 0, p.heap[c].bulkCnt)
  {
    Open(p, rs);
    assert ChunkOk(p, p.heap[c]);
    var g := p.heap[c].loc.g;
    assert c in p.grps[g].chks;
    forall h | h in p.grps[g].idleHdls && h.chk == c ensures h.idx < p.heap[c].bulkCnt {
      assert IdleIn(p, g, h);
    }
  }

  /** A chunk of a group meets what `bulk_chunk_is_idle` asserts. */
  lemma GroupChunk(p: Pool, rs: seq<Rsrvd>, c: ChunkId)
    requires Core(p, rs) && Chk(p, c).loc.InGrp?
    ensures c in p.heap && IdleAsserts(p.heap[c])
  {
    Open(p, rs);
    assert ChunkOk(p, p.heap[c]);
    SubsetSize(IdleIdx(p, c), Below(Chk(p, c).bulkCnt));
  }

  /** The handles of an idle chunk are unused and on the idle list. */
  lemma IdleHandlesOf(p: Pool, rs: seq<Rsrvd>, c: ChunkId)
    requires Core(p, rs) && Chk(p, c).loc.InGrp? && ChunkIdle(p, c)
    ensures forall k :: 0 <= k < Chk(p, c).bulkCnt ==>
              Hd(p, HdlRef(c, k)).inuse == 0 && HdlRef(c, k) in Grp(p, Chk(p, c).loc.g).idleHdls
  {
    Open(p, rs);
    var g := Chk(p, c).loc.g;
    SubsetSize(IdleIdx(p, c), Below(Chk(p, c).bulkCnt));
    forall k | 0 <= k < Chk(p, c).bulkCnt ensures Hd(p, HdlRef(c, k)).inuse == 0 && HdlRef(c, k) in Grp(p, g).idleHdls {
      assert k in Below(Chk(p, c).bulkCnt);
      assert IdleIn(p, g, HdlRef(c, k));
    }
  }

  /** A chunk of the idle list has no handles. */
  lemma IdleUnpopulated(p: Pool, rs: seq<Rsrvd>, c: ChunkId, g: nat)
    requires Core(p, rs) && c in p.idle && g < |p.grps|
    ensures Chk(p, c).refs == 0 && Chk(p, c).pgIdx == 0 && Chk(p, c).bulkCnt == 0 == Chk(p, c).bulkIdle
    ensures forall h :: h in p.grps[g].idleHdls ==> h.chk != c
  {
    Open(p, rs);
    assert ChunkOk(p, p.heap[c]);
    forall h | h in p.grps[g].idleHdls ensures h.chk != c {
      assert IdleIn(p, g, h);
    }
  }

  lemma EmptyGroup(p: Pool, rs: seq<Rsrvd>, g: nat)
    requires Core(p, rs) && g < |p.grps| && p.grps[g].chks == []
    ensures p.grps[g].chkCnt == 0
  {
    Open(p, rs);
  }

  /** Removing a handle of chunk c does not change what is left without chunk c. */
  lemma {:induction false} DropRemove(hs: seq<HdlRef>, c: ChunkId, h: HdlRef)
    requires h.chk == c
    ensures DropChk(Remove(hs, h), c) == DropChk(hs, c)
  {
    if hs != [] {
      DropRemove(hs[1..], c, h);
      if hs[0] != h {
        assert ([hs[0]] + Remove(hs[1..], h))[1..] == Remove(hs[1..], h);
      }
    }
  }

  lemma {:induction false} DropNone(hs: seq<HdlRef>, c: ChunkId)
    requires forall h :: h in hs ==> h.chk != c
    ensures DropChk(hs, c) == hs
  {
    if hs != [] {
      assert hs[0] in hs;
      DropNone(hs[1..], c);
    }
  }
}
