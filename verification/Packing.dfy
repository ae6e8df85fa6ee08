/** How many chunks a list of extents needs.  `PackAll` puts the extents one behind the other into chunks and looks at
    nothing but the extents and the chunk size.  When no descriptor holds anything, mapping the list succeeds exactly
    as far as this number allows: this is when "the whole DMA buffer isn't large enough". */
module Packing {
  import opened BioTypes
  import opened Folding
  import opened SeqLib
  import opened Pool
  import opened PoolInv
  import opened MapProofs
  import opened Mapping
  import opened MapRun
  import opened GroupProofs

  // ---------------------------------------------------------------------------------------------
  // Packing
  // ---------------------------------------------------------------------------------------------

  /** `n` chunks are in use and `cur` pages of the newest one are taken; `last` is the last region, without its chunk,
      and `huge` says that it lies in a chunk of its own. */
  datatype Pack = Pack(n: nat, cur: nat, huge: bool, last: Option<Region>)

  /** The next extent: it joins the last region, goes into the rest of its page, behind it, or into a new chunk. */
  function PackOne(cfg: Config, k: Kind, s: Pack, e: Extent): Pack {
    if NoBuffer(cfg, k, e) then s
    else if e.PgCnt() > cfg.chkSz then s.(huge := true, last := Some(NewRegion(0, 0, 0, e)))
    else if s.last.Some? && !s.huge && Mergeable(s.last.value, e)
      && ExpandIdx(s.last.value, e.off) + e.PgCnt() <= cfg.chkSz then
      s.(cur := ExpandIdx(s.last.value, e.off) + e.PgCnt(), last := Some(Widen(s.last.value, e)))
    else if s.last.Some? && PadsBehind(s.last.value, e) then
      s.(last := Some(NewRegion(0, s.last.value.pgIdx, PadOff(s.last.value), e)))
    else if s.n > 0 && s.cur + e.PgCnt() <= cfg.chkSz then
      Pack(s.n, s.cur + e.PgCnt(), false, Some(NewRegion(0, s.cur, 0, e)))
    else Pack(s.n + 1, e.PgCnt(), false, Some(NewRegion(0, 0, 0, e)))
  }

  predicate PadsBehind(r: Region, e: Extent) {
    e.media.Scm? && r.media.Scm? && PadOff(r) % 4096 != 0 && PadOff(r) % 4096 + e.len <= 4096
  }

  function PackAll(cfg: Config, k: Kind, items: seq<Item>): Pack
    decreases |items|
  {
    if items == [] then Pack(0, 0, false, None)
    else PackOne(cfg, k, PackAll(cfg, k, items[..|items| - 1]), items[|items| - 1].ext)
  }

  /** The number of chunks that the extents need. */
  function Needed(cfg: Config, k: Kind, items: seq<Item>): nat {
    PackAll(cfg, k, items).n
  }

  // ---------------------------------------------------------------------------------------------
  // The buffer when nobody else holds anything
  // ---------------------------------------------------------------------------------------------

  ghost predicate NoneHeld(p: Pool) {
    forall h :: HdlIn(p.hdls, h).inuse == 0
  }

  lemma {:induction false} NoGroupChunks(grps: seq<Group>)
    requires forall g :: 0 <= g < |grps| ==> grps[g].chks == []
    ensures SumChks(grps) == 0
  {
    if grps != [] {
      NoGroupChunks(grps[..|grps| - 1]);
    }
  }

  /** Without a held handle every chunk of a group can be reclaimed. */
  lemma AllIdle(p: Pool, c: ChunkId)
    requires IdleCounts(p) && NoneHeld(p)
    ensures ChunkIdle(p, c)
  {
    assert IdleIdx(p, c) == Below(Chk(p, c).bulkCnt);
  }

  /** If no idle chunk can be had, all chunks are used. */
  lemma NoIdleLeft(p: Pool, rs: seq<Rsrvd>, memOk: bool)
    requires Inv(p, rs) && NoneHeld(p) && EnsureIdle(p, None, memOk).0 == Again
    ensures |p.used| == p.tot
  {
    Open(p, rs);
    SlotsMembers(p, p.lru);
    forall g | 0 <= g < |p.grps| ensures p.grps[g].chks == [] {
      if p.grps[g].chks != [] {
        var c := p.grps[g].chks[0];
        assert g in p.lru && c in Grp(p, g).chks;
        AllIdle(p, c);
      }
    }
    NoGroupChunks(p.grps);
  }

  /** If one can be had, not all chunks are used, or there may be more. */
  lemma SomeIdleLeft(p: Pool, rs: seq<Rsrvd>, memOk: bool)
    requires Inv(p, rs) && EnsureIdle(p, None, memOk).0 == Ok
    ensures |p.used| < p.cfg.chkMax
  {
    Open(p, rs);
    if p.idle == [] && !(p.tot < p.cfg.chkMax && memOk) {
      SlotsMembers(p, p.lru);
      var g :| g in p.lru && Victim(p, p.lru, None).value in Grp(p, g).chks;
      SumUpdate(p.grps, g, p.grps[g]);
    }
  }

  lemma UsedBound(p: Pool, rs: seq<Rsrvd>)
    requires Inv(p, rs)
    ensures |p.used| <= p.tot <= p.cfg.chkMax
  {
    Open(p, rs);
  }

  /** An idle chunk can be had exactly as long as not all chunks are used. */
  lemma IdleCanBeHad(p: Pool, rs: seq<Rsrvd>, memOk: bool)
    requires Inv(p, rs) && NoneHeld(p)
    ensures var rc := EnsureIdle(p, None, memOk).0;
            && (rc == Again ==> |p.used| == p.tot)
            && (rc == Ok ==> |p.used| < p.cfg.chkMax)
            && (memOk && rc == Again ==> |p.used| == p.cfg.chkMax)
  {
    UsedBound(p, rs);
    if EnsureIdle(p, None, memOk).0 == Again {
      NoIdleLeft(p, rs, memOk);
    } else {
      SomeIdleLeft(p, rs, memOk);
    }
  }

  // ---------------------------------------------------------------------------------------------
  // Packing follows the mapping
  // ---------------------------------------------------------------------------------------------

  function Tail(d: Rsrvd): Option<Region> {
    if d.regions == [] then None else Some(Last(d.regions).(chk := 0))
  }

  /** The packing is where the mapping of descriptor d, the only one that holds chunks, is. */
  ghost predicate Matches(p: Pool, d: Rsrvd, s: Pack) {
    && NoneHeld(p) && |p.used| == s.n && s.last == Tail(d)
    && (s.n > 0 <==> d.kind.ctype in p.cur)
    && (s.n > 0 ==> Chk(p, p.cur[d.kind.ctype]).pgIdx == s.cur)
    && (d.regions != [] && Chk(p, Last(d.regions).chk).loc.Unlinked? ==> s.huge)
    && (d.regions != [] && !Chk(p, Last(d.regions).chk).loc.Unlinked? ==>
          !s.huge && s.n > 0 && Last(d.regions).chk == p.cur[d.kind.ctype])
  }

  /** What the next extent does to both. */
  ghost predicate Follows(p: Pool, r: MapRes, t: Pack, memOk: bool) {
    && (r.rc == Ok ==> Matches(r.pool, r.d, t) && p.tot <= r.pool.tot && t.n <= p.cfg.chkMax)
    && (r.rc == Again ==> t.n > p.tot)
    && (memOk ==> if r.rc == Ok then t.n <= p.cfg.chkMax else r.rc == Again && t.n > p.cfg.chkMax)
  }

  lemma HugeFollows(p: Pool, rs: seq<Rsrvd>, i: nat, s: Pack, e: Extent)
    requires Inv(p, rs) && i < |rs| && Matches(p, rs[i], s)
    ensures Matches(MapHuge(p, rs[i], e).pool, MapHuge(p, rs[i], e).d,
                    s.(huge := true, last := Some(NewRegion(0, 0, 0, e))))
  {
    Open(p, rs);
    assert p.next !in p.heap;
  }

  lemma ExpandFollows(p: Pool, d: Rsrvd, s: Pack, e: Extent)
    requires Matches(p, d, s) && CanExpand(p, d, e)
    ensures Matches(Expand(p, d, e).pool, Expand(p, d, e).d,
                    s.(cur := ExpandIdx(Last(d.regions), e.off) + e.PgCnt(),
                       last := Some(Widen(Last(d.regions), e).(chk := 0))))
  {
  }

  lemma BumpFollows(p: Pool, d: Rsrvd, s: Pack, e: Extent, ref: bool)
    requires Matches(p, d, s) && s.n > 0 && !Chk(p, p.cur[d.kind.ctype]).loc.Unlinked?
    ensures var r := Bump(p, d, p.cur[d.kind.ctype], e, ref);
            Matches(r.pool, r.d, Pack(s.n, s.cur + e.PgCnt(), false, Some(NewRegion(0, s.cur, 0, e))))
  {
  }

  /** What making the idle list non-empty leaves alone. */
  lemma EnsureKeeps(p: Pool, rs: seq<Rsrvd>, memOk: bool)
    requires Inv(p, rs)
    ensures var q := EnsureIdle(p, None, memOk).1;
            q.used == p.used && q.hdls == p.hdls && q.cur == p.cur && p.tot <= q.tot && q.cfg == p.cfg
  {
  }

  lemma FreshAtZero(p: Pool, rs: seq<Rsrvd>)
    requires Inv(p, rs) && p.idle != []
    ensures Chk(p, p.idle[0]).pgIdx == 0 && Chk(p, p.idle[0]).loc == OnIdle && p.idle[0] !in p.used
  {
    Open(p, rs);
    assert p.idle[0] in p.idle;
    assert ChunkOk(p, p.heap[p.idle[0]]);
  }

  /** A chunk was taken and reserved from. */
  lemma TakenFollows(p: Pool, d: Rsrvd, n: nat, e: Extent)
    requires NoneHeld(p) && |p.used| == n && p.idle != [] && Chk(p, p.idle[0]).pgIdx == 0 && e.PgCnt() <= p.cfg.chkSz
    ensures var c := p.idle[0];
            var q := TakeIdle(p, d.kind.ctype);
            var r := Bump(q, d, c, e, true);
            CanBump(q, c, e) && q.tot == p.tot && r.pool.tot == p.tot
            && Matches(r.pool, r.d, Pack(n + 1, e.PgCnt(), false, Some(NewRegion(0, 0, 0, e))))
  {
  }

  lemma FreshFollows(p: Pool, rs: seq<Rsrvd>, i: nat, s: Pack, e: Extent, memOk: bool)
    requires Inv(p, rs) && i < |rs| && Matches(p, rs[i], s) && e.len > 0 && e.PgCnt() <= p.cfg.chkSz
    ensures Follows(p, MapFresh(p, rs[i], e, memOk), Pack(s.n + 1, e.PgCnt(), false, Some(NewRegion(0, 0, 0, e))),
                    memOk)
  {
    IdleCanBeHad(p, rs, memOk);
    EnsureKeeps(p, rs, memOk);
    EnsureIdleInv(p, rs, None, memOk);
    var (rc, q) := EnsureIdle(p, None, memOk);
    if rc == Ok {
      FreshAtZero(q, rs);
      TakenFollows(q, rs[i], s.n, e);
    }
  }

  lemma CurUsed(p: Pool, rs: seq<Rsrvd>, t: ChkType)
    requires Inv(p, rs) && t in p.cur
    ensures Chk(p, p.cur[t]).loc == OnUsed
  {
    Open(p, rs);
  }

  /** Packing and mapping take the same branch. */
  lemma SameBranch(p: Pool, d: Rsrvd, s: Pack, e: Extent)
    requires Matches(p, d, s) && (d.kind.ctype in p.cur ==> Chk(p, p.cur[d.kind.ctype]).loc == OnUsed)
    ensures CanExpand(p, d, e) <==> s.last.Some? && !s.huge && Mergeable(s.last.value, e)
                                    && ExpandIdx(s.last.value, e.off) + e.PgCnt() <= p.cfg.chkSz
    ensures CanPad(d, e) <==> s.last.Some? && PadsBehind(s.last.value, e)
    ensures LastChunkFits(p, d, e) || CurChunkFits(p, d, e) <==> s.n > 0 && s.cur + e.PgCnt() <= p.cfg.chkSz
    ensures LastChunkFits(p, d, e) ==> Last(d.regions).chk == p.cur[d.kind.ctype]
  {
  }

  lemma PackFollows(p: Pool, rs: seq<Rsrvd>, i: nat, s: Pack, e: Extent, memOk: bool)
    requires Inv(p, rs) && i < |rs| && !rs[i].kind.bulk && Matches(p, rs[i], s)
    ensures Follows(p, MapOne(p, rs[i], e, memOk), PackOne(p.cfg, rs[i].kind, s, e), memOk)
  {
    var d := rs[i];
    UsedBound(p, rs);
    if d.kind.ctype in p.cur {
      CurUsed(p, rs, d.kind.ctype);
    }
    SameBranch(p, d, s, e);
    if NoBuffer(p.cfg, d.kind, e) {
    } else if e.PgCnt() > p.cfg.chkSz {
      HugeFollows(p, rs, i, s, e);
    } else if CanExpand(p, d, e) {
      ExpandFollows(p, d, s, e);
    } else if CanPad(d, e) {
    } else if LastChunkFits(p, d, e) {
      BumpFollows(p, d, s, e, false);
    } else if CurChunkFits(p, d, e) {
      BumpFollows(p, d, s, e, true);
    } else {
      FreshFollows(p, rs, i, s, e, memOk);
    }
  }

  /** The environment grants all memory that is asked for. */
  predicate Granted(items: seq<Item>) {
    forall k :: 0 <= k < |items| ==> items[k].memOk
  }

  /** How the mapping ends, in terms of the packing. */
  ghost predicate Ended(p: Pool, r: MapAllRes, t: Pack, granted: bool) {
    && (r.rc == Ok ==> Matches(r.pool, r.d, t) && p.tot <= r.pool.tot && t.n <= p.cfg.chkMax)
    && (r.rc == Again ==> t.n > p.tot)
    && (granted ==> if r.rc == Ok then t.n <= p.cfg.chkMax else r.rc == Again && t.n > p.cfg.chkMax)
  }

  /** The same as `Ended`, folded. */
  ghost predicate Ends(p: Pool, r: MapAllRes, t: Pack, granted: bool) {
    forall x {:trigger Look(x)} :: Look(x) ==> Ended(p, r, t, granted)
  }

  lemma OpenEnds(p: Pool, r: MapAllRes, t: Pack, granted: bool)
    requires Ends(p, r, t, granted)
    ensures Ended(p, r, t, granted)
  {
    assert Look(0);
  }

  lemma CloseEnds(p: Pool, r: MapAllRes, t: Pack, granted: bool)
    requires Ended(p, r, t, granted)
    ensures Ends(p, r, t, granted)
  {
  }

  /** One more extent. */
  lemma EndsNext(p: Pool, rs: seq<Rsrvd>, i: nat, items: seq<Item>, pre: MapAllRes, s: Pack, it: Item, granted: bool)
    requires i < |rs| && !rs[i].kind.bulk && AllMapped(p, rs, i, items, pre) && Ends(p, pre, s, granted)
    ensures Ends(p, MapNext(pre, it), PackOne(p.cfg, rs[i].kind, s, it.ext), granted && it.memOk)
  {
    OpenEnds(p, pre, s, granted);
    if pre.rc == Ok {
      PackFollows(pre.pool, rs[i := pre.d], i, s, it.ext, it.memOk);
    }
    CloseEnds(p, MapNext(pre, it), PackOne(p.cfg, rs[i].kind, s, it.ext), granted && it.memOk);
  }

  /** The last extent of a list. */
  lemma EndsLast(p: Pool, rs: seq<Rsrvd>, i: nat, items: seq<Item>, n: nat, pre: MapAllRes, s: Pack)
    requires n + 1 == |items| && i < |rs| && !rs[i].kind.bulk
    requires Folded(p, rs, i, items[..n], pre) && Ends(p, pre, s, Granted(items[..n]))
    ensures Ends(p, MapNext(pre, items[n]), PackOne(p.cfg, rs[i].kind, s, items[n].ext), Granted(items))
  {
    Unfold(p, rs, i, items[..n], pre);
    EndsNext(p, rs, i, items[..n], pre, s, items[n], Granted(items[..n]));
    assert Granted(items) <==> Granted(items[..n]) && items[n].memOk;
  }

  lemma NoCurrent(p: Pool, rs: seq<Rsrvd>, t: ChkType)
    requires Inv(p, rs) && p.used == []
    ensures t !in p.cur
  {
    Open(p, rs);
    if t in p.cur {
      CurUsed(p, rs, t);
    }
  }

  lemma EndsNone(p: Pool, rs: seq<Rsrvd>, i: nat)
    requires Inv(p, rs) && i < |rs| && rs[i] == Empty(rs[i].kind) && NoneHeld(p) && p.used == []
    ensures Ends(p, MapAllRes(Ok, p, rs[i], []), Pack(0, 0, false, None), true)
  {
    NoCurrent(p, rs, rs[i].kind.ctype);
    CloseEnds(p, MapAllRes(Ok, p, rs[i], []), Pack(0, 0, false, None), true);
  }

  /** Mapping a list while nobody else holds anything: it runs short of chunks only if it needs more than there are,
      and if memory is granted exactly if it needs more than there may be. */
  lemma {:induction false} MappingIsPacking(p: Pool, rs: seq<Rsrvd>, i: nat, items: seq<Item>)
    requires Inv(p, rs) && i < |rs| && rs[i] == Empty(rs[i].kind) && !rs[i].kind.bulk && NoneHeld(p) && p.used == []
    requires forall k :: 0 <= k < |items| ==> ItemOk(items[k])
    ensures Ends(p, MapAll(p, rs[i], items), PackAll(p.cfg, rs[i].kind, items), Granted(items))
    decreases |items|
  {
    if items == [] {
      EndsNone(p, rs, i);
    } else {
      var n := |items| - 1;
      MappingIsPacking(p, rs, i, items[..n]);
      MapAllFolded(p, rs, i, items[..n]);
      EndsLast(p, rs, i, items, n, MapAll(p, rs[i], items[..n]), PackAll(p.cfg, rs[i].kind, items[..n]));
    }
  }

  // ---------------------------------------------------------------------------------------------
  // How good the packing is
  // ---------------------------------------------------------------------------------------------

  /** The pages of the extents that share chunks. */
  function Pages(cfg: Config, k: Kind, items: seq<Item>): nat
    decreases |items|
  {
    if items == [] then 0
    else Pages(cfg, k, items[..|items| - 1]) + PagesOf(cfg, k, items[|items| - 1].ext)
  }

  /** The last region ends at the pages taken so far. */
  ghost predicate Tight(s: Pack) {
    && (s.last.Some? ==> s.last.value.Wf() && (!s.huge ==> s.n > 0 && s.last.value.HiPg() <= s.cur))
    && (s.n > 0 ==> s.cur > 0)
  }

  /** The chunks before the newest are half full on average. */
  predicate Dense(cfg: Config, s: Pack, pages: nat) {
    s.n > 0 ==> (s.n - 1) * cfg.chkSz + s.cur <= 2 * pages
  }

  lemma TightNext(cfg: Config, k: Kind, s: Pack, e: Extent)
    requires Tight(s)
    ensures Tight(PackOne(cfg, k, s, e))
  {
    if !NoBuffer(cfg, k, e) {
      ExtentFitsPages(e);
      NewRegionSpan(0, 0, e);
      if e.PgCnt() > cfg.chkSz {
      } else if s.last.Some? && !s.huge && Mergeable(s.last.value, e)
        && ExpandIdx(s.last.value, e.off) + e.PgCnt() <= cfg.chkSz {
        ExpandSpan(s.last.value, e);
      } else if s.last.Some? && PadsBehind(s.last.value, e) {
        PadSpan(s.last.value, e);
      } else if s.n > 0 && s.cur + e.PgCnt() <= cfg.chkSz {
        NewRegionSpan(0, s.cur, e);
      }
    }
  }

  /** The pages that an extent takes from shared chunks. */
  function PagesOf(cfg: Config, k: Kind, e: Extent): nat {
    if NoBuffer(cfg, k, e) || e.PgCnt() > cfg.chkSz then 0 else e.PgCnt()
  }

  /** From s to t, `q` pages were packed: into the newest chunk, or into a new one because they did not fit. */
  predicate Moves(cfg: Config, s: Pack, t: Pack, q: nat) {
    || (t.n == s.n && t.cur <= s.cur + q)
    || (t.n == s.n + 1 && t.cur == q && (s.n > 0 ==> s.cur + q > cfg.chkSz))
  }

  lemma PackMoves(cfg: Config, k: Kind, s: Pack, e: Extent)
    requires Tight(s)
    ensures Moves(cfg, s, PackOne(cfg, k, s, e), PagesOf(cfg, k, e))
  {
    if !NoBuffer(cfg, k, e) && s.last.Some? && !s.huge && Mergeable(s.last.value, e) {
      ExpandSpan(s.last.value, e);
    }
  }

  lemma DenseMoves(cfg: Config, s: Pack, t: Pack, q: nat, pages: nat)
    requires Dense(cfg, s, pages) && Moves(cfg, s, t, q)
    ensures Dense(cfg, t, pages + q)
  {
    if s.n > 0 {
      assert s.n * cfg.chkSz == (s.n - 1) * cfg.chkSz + cfg.chkSz;
    }
  }

  lemma {:induction false} PackDense(cfg: Config, k: Kind, items: seq<Item>)
    ensures Tight(PackAll(cfg, k, items)) && Dense(cfg, PackAll(cfg, k, items), Pages(cfg, k, items))
    decreases |items|
  {
    if items != [] {
      var n := |items| - 1;
      var s, e := PackAll(cfg, k, items[..n]), items[n].ext;
      PackDense(cfg, k, items[..n]);
      TightNext(cfg, k, s, e);
      PackMoves(cfg, k, s, e);
      DenseMoves(cfg, s, PackOne(cfg, k, s, e), PagesOf(cfg, k, e), Pages(cfg, k, items[..n]));
    }
  }

  lemma MulMono(a: nat, b: nat, c: nat)
    requires a <= b
    ensures a * c <= b * c
  {
  }

  /** A list that needs more chunks than there may be has more pages than half of the buffer. */
  lemma NeededBound(cfg: Config, k: Kind, items: seq<Item>)
    requires Needed(cfg, k, items) > cfg.chkMax
    ensures cfg.chkMax * cfg.chkSz < 2 * Pages(cfg, k, items)
  {
    PackDense(cfg, k, items);
    var n := Needed(cfg, k, items);
    MulMono(cfg.chkMax, n - 1, cfg.chkSz);
  }
}
