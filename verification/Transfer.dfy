/** The transfers of `dma_rw`: which bytes of DMA memory are exchanged with which bytes of the media, whatever the order
    in which SPDK carries the page transfers out and whatever other descriptors do in between. */
module Transfer {
  import opened BioTypes
  import opened SeqLib
  import opened Pool
  import opened PoolInv
  import opened MapProofs
  import opened ReleaseRun

  type Byte = bv8

  /** One transfer of `n` bytes between byte `mem` of a chunk and byte `dev` of a medium. */
  datatype Op = Op(chk: ChunkId, mem: nat, media: Media, dev: nat, n: nat)

  /** DMA memory, SCM, and the blob the descriptor works on. */
  datatype World = World(dma: (ChunkId, nat) -> Byte, scm: nat -> Byte, nvme: nat -> Byte)
  {
    function Dev(m: Media, a: nat): Byte {
      if m.Scm? then scm(a) else nvme(a)
    }
  }

  // ---------------------------------------------------------------------------------------------
  // nvme_rw, scm_rw, dma_rw
  // ---------------------------------------------------------------------------------------------

  /** `page2io_unit` */
  function PageToIoUnit(ioUnit: nat, pgSz: nat, page: nat): nat
    requires 0 < ioUnit
  {
    page * (pgSz / ioUnit)
  }

  /** Addressing the blob in I/O units hits the right bytes of every page exactly if the unit divides the page size. */
  lemma IoUnitsExact(ioUnit: nat, pgSz: nat)
    requires 0 < ioUnit
    ensures (forall page: nat :: PageToIoUnit(ioUnit, pgSz, page) * ioUnit == page * pgSz) <==> pgSz % ioUnit == 0
  {
    var k := pgSz / ioUnit;
    assert pgSz == k * ioUnit + pgSz % ioUnit;
    if forall page: nat :: PageToIoUnit(ioUnit, pgSz, page) * ioUnit == page * pgSz {
      assert PageToIoUnit(ioUnit, pgSz, 1) * ioUnit == 1 * pgSz;
    }
    if pgSz % ioUnit == 0 {
      forall page: nat ensures PageToIoUnit(ioUnit, pgSz, page) * ioUnit == page * pgSz {
        assert page * k * ioUnit == page * (k * ioUnit);
      }
    }
  }

  /** The page transfers of `nvme_rw`, each of at most one chunk size. */
  function NvmeOps(chkSz: nat, chk: ChunkId, memPg: nat, devPg: nat, cnt: int): seq<Op>
    decreases cnt
  {
    if cnt <= 0 || chkSz == 0 then []
    else
      var n := if cnt > chkSz then chkSz else cnt;
      [Op(chk, memPg * 4096, Nvme, devPg * 4096, n * 4096)]
      + NvmeOps(chkSz, chk, memPg + n, devPg + n, cnt - n)
  }

  /** First byte of the medium that region `r` exchanges. */
  function DevLo(r: Region): nat {
    if r.media.Scm? then r.off else FloorPg(r.off) * 4096
  }

  /** The transfers of one region. */
  function OpsOf(chkSz: nat, r: Region): seq<Op> {
    if r.media.Scm? then [Op(r.chk, r.Lo(), Scm, r.off, if r.off <= r.end then r.end - r.off else 0)]
    else NvmeOps(chkSz, r.chk, r.pgIdx, FloorPg(r.off), r.Pages())
  }

  /** The transfers of all regions in order. */
  function AllOps(chkSz: nat, regions: seq<Region>): seq<Op> {
    if regions == [] then []
    else AllOps(chkSz, regions[..|regions| - 1]) + OpsOf(chkSz, Last(regions))
  }

  /** The loop of `nvme_rw`. */
  method NvmeRw(chkSz: nat, r: Region) returns (ops: seq<Op>)
    requires 0 < chkSz && r.Wf() && r.media.Nvme?
    ensures ops == OpsOf(chkSz, r)
    ensures forall k :: 0 <= k < |ops| ==> ops[k].n <= chkSz * 4096
  {
    assert r.chkOff == 0;
    var payload := r.pgIdx * 4096;
    var pgIdx := FloorPg(r.off);
    var pgCnt := CeilPg(r.end);
    assert pgCnt > pgIdx;
    pgCnt := pgCnt - pgIdx;
    ops := [];
    ghost var done := 0;
    while pgCnt > 0
      invariant pgIdx == FloorPg(r.off) + done && payload == (r.pgIdx + done) * 4096 && pgCnt == r.Pages() - done >= 0
      invariant ops + NvmeOps(chkSz, r.chk, r.pgIdx + done, pgIdx, pgCnt) == OpsOf(chkSz, r)
      invariant forall k :: 0 <= k < |ops| ==> ops[k].n <= chkSz * 4096
    {
      var rwCnt := if pgCnt > chkSz then chkSz else pgCnt;
      var op := Op(r.chk, payload, Nvme, pgIdx * 4096, rwCnt * 4096);
      assert op.n <= chkSz * 4096;
      ghost var rest := NvmeOps(chkSz, r.chk, r.pgIdx + done + rwCnt, pgIdx + rwCnt, pgCnt - rwCnt);
      assert ops + ([op] + rest) == (ops + [op]) + rest;
      ops := ops + [op];
      pgCnt := pgCnt - rwCnt;
      pgIdx := pgIdx + rwCnt;
      payload := payload + rwCnt * 4096;
      done := done + rwCnt;
    }
  }

  /** The loop of `dma_rw`, with `scm_rw`. */
  method DmaRw(chkSz: nat, regions: seq<Region>) returns (ops: seq<Op>)
    requires 0 < chkSz && forall g :: 0 <= g < |regions| ==> regions[g].Wf()
    ensures ops == AllOps(chkSz, regions)
  {
    ops := [];
    var i := 0;
    while i < |regions|
      invariant 0 <= i <= |regions|
      invariant ops == AllOps(chkSz, regions[..i])
    {
      var rg := regions[i];
      assert rg.end > rg.off;
      AllOpsSnoc(chkSz, regions[..i], rg);
      assert regions[..i + 1] == regions[..i] + [rg];
      if rg.media.Scm? {
        ops := ops + [Op(rg.chk, rg.pgIdx * 4096 + rg.chkOff, Scm, rg.off, rg.end - rg.off)];
      } else {
        var more := NvmeRw(chkSz, rg);
        ops := ops + more;
      }
      i := i + 1;
    }
    assert regions[..i] == regions;
  }

  // ---------------------------------------------------------------------------------------------
  // Geometry of the transfers
  // ---------------------------------------------------------------------------------------------

  predicate Hits(op: Op, x: nat) {
    op.mem <= x < op.mem + op.n
  }

  /** Every transfer stays inside its region and moves bytes by the same distance. */
  predicate OpIn(op: Op, r: Region) {
    && op.chk == r.chk && op.media == r.media
    && r.Lo() <= op.mem && op.mem + op.n <= r.Hi()
    && op.mem - op.dev == r.Lo() - DevLo(r)
  }

  lemma {:induction false} NvmeOpsIn(chkSz: nat, chk: ChunkId, memPg: nat, devPg: nat, cnt: int, op: Op)
    requires 0 < chkSz && op in NvmeOps(chkSz, chk, memPg, devPg, cnt)
    ensures op.chk == chk && op.media == Nvme && memPg * 4096 <= op.mem && op.mem + op.n <= (memPg + cnt) * 4096
    ensures op.mem - op.dev == memPg * 4096 - devPg * 4096
    decreases cnt
  {
    var n := if cnt > chkSz then chkSz else cnt;
    var rest := NvmeOps(chkSz, chk, memPg + n, devPg + n, cnt - n);
    if op in rest {
      NvmeOpsIn(chkSz, chk, memPg + n, devPg + n, cnt - n, op);
    }
  }

  lemma {:induction false} NvmeOpsCover(chkSz: nat, chk: ChunkId, memPg: nat, devPg: nat, cnt: int, x: nat)
    returns (op: Op)
    requires 0 < chkSz && memPg * 4096 <= x < (memPg + cnt) * 4096
    ensures op in NvmeOps(chkSz, chk, memPg, devPg, cnt) && Hits(op, x)
    decreases cnt
  {
    var n := if cnt > chkSz then chkSz else cnt;
    if x < (memPg + n) * 4096 {
      op := Op(chk, memPg * 4096, Nvme, devPg * 4096, n * 4096);
    } else {
      op := NvmeOpsCover(chkSz, chk, memPg + n, devPg + n, cnt - n, x);
    }
  }

  lemma OpsIn(chkSz: nat, r: Region, op: Op)
    requires 0 < chkSz && r.Wf() && op in OpsOf(chkSz, r)
    ensures OpIn(op, r)
  {
    if r.media.Nvme? {
      NvmeOpsIn(chkSz, r.chk, r.pgIdx, FloorPg(r.off), r.Pages(), op);
    }
  }

  /** Every byte of the region is transferred. */
  lemma OpsCover(chkSz: nat, r: Region, x: nat) returns (op: Op)
    requires 0 < chkSz && r.Wf() && r.Lo() <= x < r.Hi()
    ensures op in OpsOf(chkSz, r) && Hits(op, x)
  {
    if r.media.Nvme? {
      op := NvmeOpsCover(chkSz, r.chk, r.pgIdx, FloorPg(r.off), r.Pages(), x);
    } else {
      op := Op(r.chk, r.Lo(), Scm, r.off, r.end - r.off);
    }
  }

  /** One more region. */
  lemma AllOpsSnoc(chkSz: nat, regions: seq<Region>, r: Region)
    ensures AllOps(chkSz, regions + [r]) == AllOps(chkSz, regions) + OpsOf(chkSz, r)
  {
    assert (regions + [r])[..|regions|] == regions;
  }

  lemma {:induction false} AllOpsHas(chkSz: nat, regions: seq<Region>, g: nat, op: Op)
    requires g < |regions| && op in OpsOf(chkSz, regions[g])
    ensures op in AllOps(chkSz, regions)
  {
    var n := |regions| - 1;
    if g < n {
      AllOpsHas(chkSz, regions[..n], g, op);
    }
  }

  lemma {:induction false} AllOpsFrom(chkSz: nat, regions: seq<Region>, op: Op) returns (g: nat)
    requires op in AllOps(chkSz, regions)
    ensures g < |regions| && op in OpsOf(chkSz, regions[g])
  {
    var n := |regions| - 1;
    if op in OpsOf(chkSz, regions[n]) {
      g := n;
    } else {
      g := AllOpsFrom(chkSz, regions[..n], op);
    }
  }

  // ---------------------------------------------------------------------------------------------
  // Runs
  // ---------------------------------------------------------------------------------------------

  /** What happens while the transfers of a descriptor are carried out: one of them, or anything done by others. */
  datatype Event = Own(op: Op) | Foreign(after: World)

  /** The effect of one transfer: to the medium when `write`, else from it. */
  ghost function Do(write: bool, w: World, op: Op): World {
    if !write then
      w.(dma := (c: ChunkId, x: nat) =>
           if c == op.chk && Hits(op, x) then w.Dev(op.media, op.dev + (x - op.mem)) else w.dma(c, x))
    else if op.media.Scm? then
      w.(scm := (a: nat) => if op.dev <= a < op.dev + op.n then w.dma(op.chk, op.mem + (a - op.dev)) else w.scm(a))
    else
      w.(nvme := (a: nat) => if op.dev <= a < op.dev + op.n then w.dma(op.chk, op.mem + (a - op.dev)) else w.nvme(a))
  }

  ghost function Run(write: bool, w: World, es: seq<Event>): World {
    if es == [] then w
    else
      var v := Run(write, w, es[..|es| - 1]);
      match Last(es)
      case Own(op) => Do(write, v, op)
      case Foreign(after) => after
  }

  predicate InMem(r: Region, c: ChunkId, x: nat) {
    c == r.chk && r.Lo() <= x < r.Hi()
  }

  predicate InDev(r: Region, m: Media, a: nat) {
    m == r.media && DevLo(r) <= a < DevLo(r) + (r.Hi() - r.Lo())
  }

  /** Others leave alone the memory and the media of the regions. */
  ghost predicate Leaves(v: World, after: World, regions: seq<Region>) {
    && (forall g, c, x :: 0 <= g < |regions| && InMem(regions[g], c, x) ==> after.dma(c, x) == v.dma(c, x))
    && (forall g, m, a :: 0 <= g < |regions| && InDev(regions[g], m, a) ==> after.Dev(m, a) == v.Dev(m, a))
  }

  ghost predicate Wfs(regions: seq<Region>) {
    forall g :: 0 <= g < |regions| ==> regions[g].Wf()
  }

  /** A run of the descriptor's transfers, in any order and possibly repeated, between steps of others. */
  ghost predicate Fair(chkSz: nat, write: bool, w: World, es: seq<Event>, regions: seq<Region>)
  {
    es == [] || (&& Fair(chkSz, write, w, es[..|es| - 1], regions)
                 && match Last(es)
                    case Own(op) => op in AllOps(chkSz, regions)
                    case Foreign(after) => Leaves(Run(write, w, es[..|es| - 1]), after, regions))
  }

  /** Every transfer was carried out. */
  ghost predicate Finished(chkSz: nat, es: seq<Event>, regions: seq<Region>)
  {
    forall op :: op in AllOps(chkSz, regions) ==> Own(op) in es
  }

  ghost predicate MemDisjoint(regions: seq<Region>) {
    forall g, k :: 0 <= g < k < |regions| ==> Disjoint(regions[g], regions[k])
  }

  predicate DevApart(r: Region, q: Region) {
    r.media == q.media ==> DevLo(r) + (r.Hi() - r.Lo()) <= DevLo(q) || DevLo(q) + (q.Hi() - q.Lo()) <= DevLo(r)
  }

  ghost predicate DevDisjoint(regions: seq<Region>) {
    forall g, k :: 0 <= g < k < |regions| ==> DevApart(regions[g], regions[k])
  }

  /** One of the transfers reached byte x of chunk c. */
  ghost predicate Reached(es: seq<Event>, c: ChunkId, x: nat) {
    exists k :: 0 <= k < |es| && es[k].Own? && es[k].op.chk == c && Hits(es[k].op, x)
  }

  /** The region a transfer belongs to. */
  lemma OwnerOf(chkSz: nat, regions: seq<Region>, op: Op) returns (g: nat)
    requires 0 < chkSz && Wfs(regions) && op in AllOps(chkSz, regions)
    ensures g < |regions| && OpIn(op, regions[g])
  {
    g := AllOpsFrom(chkSz, regions, op);
    OpsIn(chkSz, regions[g], op);
  }

  /** The effect of one read on byte x of region g and on the byte of the medium that belongs to it. */
  lemma ReadStep(chkSz: nat, v: World, op: Op, regions: seq<Region>, g: nat, x: nat)
    requires 0 < chkSz && Wfs(regions) && MemDisjoint(regions) && op in AllOps(chkSz, regions)
    requires g < |regions| && InMem(regions[g], regions[g].chk, x)
    ensures var r := regions[g];
            var a := DevLo(r) + (x - r.Lo());
            var u := Do(false, v, op);
            && u.Dev(r.media, a) == v.Dev(r.media, a)
            && u.dma(r.chk, x) == if op.chk == r.chk && Hits(op, x) then v.Dev(r.media, a) else v.dma(r.chk, x)
  {
    if op.chk == regions[g].chk && Hits(op, x) {
      var k := OwnerOf(chkSz, regions, op);
      assert k == g;
    }
  }

  /** Reads: the media never change, and a byte that was reached holds the byte of the medium that belongs to it. */
  lemma {:induction false} FetchByte(chkSz: nat, w: World, es: seq<Event>, regions: seq<Region>, g: nat, x: nat)
    requires 0 < chkSz && Wfs(regions) && MemDisjoint(regions) && Fair(chkSz, false, w, es, regions)
    requires g < |regions| && InMem(regions[g], regions[g].chk, x)
    ensures var r := regions[g];
            var a := DevLo(r) + (x - r.Lo());
            && Run(false, w, es).Dev(r.media, a) == w.Dev(r.media, a)
            && (Reached(es, r.chk, x) ==> Run(false, w, es).dma(r.chk, x) == w.Dev(r.media, a))
  {
    if es != [] {
      var r := regions[g];
      var n := |es| - 1;
      FetchByte(chkSz, w, es[..n], regions, g, x);
      ReachedLast(es, r.chk, x);
      assert InDev(r, r.media, DevLo(r) + (x - r.Lo()));
      if Last(es).Own? {
        ReadStep(chkSz, Run(false, w, es[..n]), Last(es).op, regions, g, x);
      }
    }
  }

  lemma ReachedLast(es: seq<Event>, c: ChunkId, x: nat)
    requires es != []
    ensures Reached(es, c, x) ==> Reached(es[..|es| - 1], c, x)
                                  || (Last(es).Own? && Last(es).op.chk == c && Hits(Last(es).op, x))
  {
    if Reached(es, c, x) {
      var k :| 0 <= k < |es| && es[k].Own? && es[k].op.chk == c && Hits(es[k].op, x);
      assert k < |es| - 1 ==> es[..|es| - 1][k] == es[k];
    }
  }

  predicate HitsDev(op: Op, m: Media, a: nat) {
    op.media == m && op.dev <= a < op.dev + op.n
  }

  ghost predicate Written(es: seq<Event>, m: Media, a: nat) {
    exists k :: 0 <= k < |es| && es[k].Own? && HitsDev(es[k].op, m, a)
  }

  lemma WrittenLast(es: seq<Event>, m: Media, a: nat)
    requires es != []
    ensures Written(es, m, a) ==> Written(es[..|es| - 1], m, a) || (Last(es).Own? && HitsDev(Last(es).op, m, a))
  {
    if Written(es, m, a) {
      var k :| 0 <= k < |es| && es[k].Own? && HitsDev(es[k].op, m, a);
      assert k < |es| - 1 ==> es[..|es| - 1][k] == es[k];
    }
  }

  /** Nothing changes but what the transfer is to change. */
  ghost predicate Scribbles(write: bool, v: World, after: World, op: Op) {
    if write then (forall c, x :: after.dma(c, x) == v.dma(c, x)) && forall m, a :: !HitsDev(op, m, a) ==>
      after.Dev(m, a) == v.Dev(m, a)
    else (forall m, a :: after.Dev(m, a) == v.Dev(m, a)) && forall c, x :: !(c == op.chk && Hits(op, x)) ==>
      after.dma(c, x) == v.dma(c, x)
  }

  /** Some bytes of the transfer are there already. */
  ghost predicate Mixed(write: bool, v: World, after: World, op: Op) {
    && Scribbles(write, v, after, op)
    && if write then forall m, a :: after.Dev(m, a) == v.Dev(m, a) || after.Dev(m, a) == Do(write, v, op).Dev(m, a)
       else forall c, x :: after.dma(c, x) == v.dma(c, x) || after.dma(c, x) == Do(write, v, op).dma(c, x)
  }

  lemma DoScribbles(write: bool, v: World, op: Op)
    ensures Scribbles(write, v, Do(write, v, op), op)
  {
  }

  /** The effect of one write on the byte of the medium that belongs to byte x of region g. */
  lemma WriteStep(chkSz: nat, v: World, op: Op, regions: seq<Region>, g: nat, x: nat)
    requires 0 < chkSz && Wfs(regions) && DevDisjoint(regions) && op in AllOps(chkSz, regions)
    requires g < |regions| && InMem(regions[g], regions[g].chk, x)
    ensures var r := regions[g];
            var a := DevLo(r) + (x - r.Lo());
            var u := Do(true, v, op);
            && u.dma(r.chk, x) == v.dma(r.chk, x)
            && u.Dev(r.media, a) == if HitsDev(op, r.media, a) then v.dma(r.chk, x) else v.Dev(r.media, a)
  {
    var r := regions[g];
    if HitsDev(op, r.media, DevLo(r) + (x - r.Lo())) {
      var k := OwnerOf(chkSz, regions, op);
      assert k == g;
    }
  }

  /** Writes: the memory never changes, and a byte of the medium that was written holds the byte that belongs to it. */
  lemma {:induction false} UpdateByte(chkSz: nat, w: World, es: seq<Event>, regions: seq<Region>, g: nat, x: nat)
    requires 0 < chkSz && Wfs(regions) && DevDisjoint(regions) && Fair(chkSz, true, w, es, regions)
    requires g < |regions| && InMem(regions[g], regions[g].chk, x)
    ensures var r := regions[g];
            var a := DevLo(r) + (x - r.Lo());
            && Run(true, w, es).dma(r.chk, x) == w.dma(r.chk, x)
            && (Written(es, r.media, a) ==> Run(true, w, es).Dev(r.media, a) == w.dma(r.chk, x))
  {
    if es != [] {
      var r := regions[g];
      var a := DevLo(r) + (x - r.Lo());
      UpdateByte(chkSz, w, es[..|es| - 1], regions, g, x);
      WrittenLast(es, r.media, a);
      assert InDev(r, r.media, a);
      if Last(es).Own? {
        WriteStep(chkSz, Run(true, w, es[..|es| - 1]), Last(es).op, regions, g, x);
      }
    }
  }

  /** Others do not change byte a of the medium. */
  ghost predicate Quiet(write: bool, w: World, es: seq<Event>, m: Media, a: nat) {
    es == [] || (&& Quiet(write, w, es[..|es| - 1], m, a)
                 && (Last(es).Foreign? ==> Last(es).after.Dev(m, a) == Run(write, w, es[..|es| - 1]).Dev(m, a)))
  }

  /** A byte of the medium outside all regions is not changed by the descriptor. */
  lemma {:induction false} OutsideByte(chkSz: nat, w: World, es: seq<Event>, regions: seq<Region>, m: Media, a: nat)
    requires 0 < chkSz && Wfs(regions) && Fair(chkSz, true, w, es, regions) && Quiet(true, w, es, m, a)
    requires forall g :: 0 <= g < |regions| ==> !InDev(regions[g], m, a)
    ensures Run(true, w, es).Dev(m, a) == w.Dev(m, a)
  {
    if es != [] {
      OutsideByte(chkSz, w, es[..|es| - 1], regions, m, a);
      if Last(es).Own? {
        var g := OwnerOf(chkSz, regions, Last(es).op);
        assert !InDev(regions[g], m, a);
      }
    }
  }

  /** All transfers carried out: byte x of region g was reached from both sides. */
  lemma FinishedHits(chkSz: nat, es: seq<Event>, regions: seq<Region>, g: nat, x: nat)
    requires 0 < chkSz && Wfs(regions) && Finished(chkSz, es, regions)
    requires g < |regions| && InMem(regions[g], regions[g].chk, x)
    ensures var r := regions[g];
            Reached(es, r.chk, x) && Written(es, r.media, DevLo(r) + (x - r.Lo()))
  {
    var r := regions[g];
    var op := OpsCover(chkSz, r, x);
    OpsIn(chkSz, r, op);
    AllOpsHas(chkSz, regions, g, op);
    assert Own(op) in es;
    var k :| 0 <= k < |es| && es[k] == Own(op);
    assert es[k].Own? && es[k].op.chk == r.chk && Hits(es[k].op, x);
    assert HitsDev(es[k].op, r.media, DevLo(r) + (x - r.Lo()));
  }
}
