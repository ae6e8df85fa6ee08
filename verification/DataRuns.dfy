/** Whole runs with data: every transfer of every descriptor is issued, carried out in any order and completed, between
    the steps of all other descriptors, and moves bytes between DMA memory and the media.  What a successful fetch or
    update promises about these bytes is proved for every such run. */
module DataRuns {
  import opened BioTypes
  import opened Folding
  import opened Pool
  import opened PoolInv
  import opened MapProofs
  import opened MapRun
  import opened ReleaseRun
  import opened Transfer
  import opened Refinement
  import P = Protocol
  import I = ProtocolInv
  import R = Runs
  import F = Inflight

  /** The transfers of a descriptor: still to be issued, handed to SPDK, and carried out; `was` is memory and media
      when they began. */
  datatype Rw = Rw(todo: seq<Op>, sent: seq<Op>, did: seq<Op>, was: World)

  datatype All = All(sys: R.Sys, ios: seq<Rw>, w: World)

  /** `Ctl` is any move but handing over a transfer or completing one.  `Copy` carries out the next transfer, an SCM
      one, at once; `Send` hands the next transfer over; with `Drift` some bytes of number k of those handed over
      arrive, with `Arrive` all of them and its completion, or with an error anything in their place; `Fill` is the
      caller writing into the buffers of its descriptor. */
  datatype Act = Ctl(m: R.Move) | Copy(i: nat) | Send(i: nat) | Drift(i: nat, k: nat, after: World)
               | Arrive(i: nat, k: nat, err: bool, after: World) | Fill(i: nat, after: World)

  predicate Sized(s: All) {
    |s.sys.rs| == |s.sys.items| == |s.sys.places| == |s.sys.ctl.iods| == |s.ios|
  }

  // ---------------------------------------------------------------------------------------------
  // Steps
  // ---------------------------------------------------------------------------------------------

  predicate Writes(s: All, i: nat)
    requires Sized(s) && i < |s.ios|
  {
    s.sys.ctl.iods[i].kind.iod.Update?
  }

  /** No other descriptor has reserved memory for the part of the media that descriptor i writes. */
  ghost predicate Alone(s: All, i: nat)
    requires Sized(s) && i < |s.ios|
  {
    forall o, g, k :: 0 <= o < |s.sys.rs| && o != i && 0 <= g < |s.sys.rs[o].regions|
                      && 0 <= k < |s.sys.rs[i].regions| ==>
                        DevApart(s.sys.rs[o].regions[g], s.sys.rs[i].regions[k])
  }

  /** The caller changes only bytes that its descriptor reserved, and SCM that nobody else reserved memory for. */
  ghost predicate FillsOwn(s: All, i: nat, after: World)
    requires Sized(s) && i < |s.ios|
  {
    && (forall c, x :: (forall g :: 0 <= g < |s.sys.rs[i].regions| ==> !InMem(s.sys.rs[i].regions[g], c, x)) ==>
                         after.dma(c, x) == s.w.dma(c, x))
    && (forall a :: after.nvme(a) == s.w.nvme(a))
    && (forall o, g, a :: 0 <= o < |s.sys.rs| && o != i && 0 <= g < |s.sys.rs[o].regions|
                          && InDev(s.sys.rs[o].regions[g], Scm, a) ==>
                            after.scm(a) == s.w.scm(a))
  }

  predicate CtlMove(m: R.Move) {
    m.Other? ==> !(m.l.IssueOne? && !m.l.bad) && !m.l.Done?
  }

  ghost predicate Enabled(s: All, a: Act) {
    && Sized(s)
    && match a
       case Ctl(m) => && R.Enabled(s.sys, m) && CtlMove(m)
                      && (m.Other? && m.l.EndRw? ==> s.ios[m.l.i].todo == [])
                      && (m.Other? && m.l.IssueOne? ==> s.ios[m.l.i].todo != [])
       case Copy(i) => && i < |s.ios| && s.sys.ctl.iods[i].pc == P.Issuing && (Writes(s, i) ==> Alone(s, i))
                       && s.ios[i].todo != [] && s.ios[i].todo[0].media.Scm?
       case Send(i) => && i < |s.ios| && s.sys.ctl.iods[i].pc == P.Issuing
                       && s.ios[i].todo != [] && s.ios[i].todo[0].media.Nvme?
       case Drift(i, k, after) => && i < |s.ios| && k < |s.ios[i].sent| && (Writes(s, i) ==> Alone(s, i))
                                  && Mixed(Writes(s, i), s.w, after, s.ios[i].sent[k])
       case Arrive(i, k, err, after) => && i < |s.ios| && k < |s.ios[i].sent| && s.sys.ctl.iods[i].outstanding > 0
                                        && (Writes(s, i) ==> Alone(s, i))
                                        && (err ==> Scribbles(Writes(s, i), s.w, after, s.ios[i].sent[k]))
       case Fill(i, after) => && i < |s.ios| && FillsOwn(s, i, after)
                              && var d := s.sys.ctl.iods[i];
                                 d.pc == P.Outside && d.prep && !d.posted && !d.kind.iod.Fetch?
  }

  function Without<T>(s: seq<T>, k: nat): seq<T>
    requires k < |s|
  {
    s[..k] + s[k + 1..]
  }

  function Idle(io: Rw): Rw {
    io.(todo := [], sent := [], did := [])
  }

  /** The transfers of the moving descriptor after a protocol step from d to e. */
  function NextIo(io: Rw, d: P.Iod, e: P.Iod, ops: seq<Op>, skip: bool, w: World): Rw {
    if e.pc == P.Issuing && d.pc != P.Issuing then Rw(ops, [], [], w)
    else if !d.act || !e.act then Idle(io)
    else if skip && io.todo != [] then io.(todo := io.todo[1..])
    else io
  }

  function Sent(io: Rw): Rw
    requires io.todo != []
  {
    io.(todo := io.todo[1..], sent := io.sent + [io.todo[0]])
  }

  function Copied(io: Rw): Rw
    requires io.todo != []
  {
    io.(todo := io.todo[1..], did := io.did + [io.todo[0]])
  }

  function Arrived(io: Rw, k: nat, err: bool): Rw
    requires k < |io.sent|
  {
    io.(sent := Without(io.sent, k), did := if err then io.did else io.did + [io.sent[k]])
  }

  ghost function Moved(s: R.Sys, m: R.Move): (t: R.Sys)
    requires |s.rs| == |s.items| == |s.places| == |s.ctl.iods| && R.Enabled(s, m)
    ensures |t.rs| == |t.items| == |t.places| == |t.ctl.iods| == |s.rs| && R.Who(m) < |s.rs|
  {
    R.Step(s, m)
  }

  ghost function Step(s: All, a: Act): All
    requires Enabled(s, a)
  {
    match a
    case Ctl(m) =>
      var t := Moved(s.sys, m);
      var i := R.Who(m);
      All(t, s.ios[i := NextIo(s.ios[i], s.sys.ctl.iods[i], t.ctl.iods[i], AllOps(t.pool.cfg.chkSz, t.rs[i].regions),
                               m.Other? && m.l.IssueOne?, s.w)], s.w)
    case Copy(i) =>
      s.(ios := s.ios[i := Copied(s.ios[i])], w := Do(Writes(s, i), s.w, s.ios[i].todo[0]))
    case Send(i) =>
      All(Moved(s.sys, R.Other(P.IssueOne(i, false))), s.ios[i := Sent(s.ios[i])], s.w)
    case Drift(i, k, after) => s.(w := after)
    case Arrive(i, k, err, after) =>
      var t := Moved(s.sys, R.Other(P.Done(i, err)));
      var io := Arrived(s.ios[i], k, err);
      All(t, s.ios[i := if t.ctl.iods[i].act then io else Idle(io)],
          if err then after else Do(Writes(s, i), s.w, s.ios[i].sent[k]))
    case Fill(i, after) => s.(w := after)
  }

  // ---------------------------------------------------------------------------------------------
  // The invariant
  // ---------------------------------------------------------------------------------------------

  /** The transfers of the current buffer were started. */
  predicate Begun(d: P.Iod) {
    d.act && (d.kind.iod.Fetch? || d.posted)
  }

  predicate Within(io: Rw, op: Op) {
    op in io.todo || op in io.sent || op in io.did
  }

  /** The bookkeeping of one descriptor: transfers are those of its regions, as many are handed over as the protocol
      says are outstanding, without an error none gets lost, and a fetch that failed does not keep its buffer. */
  ghost predicate Booked(chkSz: nat, d: P.Iod, regions: seq<Region>, io: Rw) {
    && |io.sent| == d.outstanding
    && (d.pc != P.Issuing ==> io.todo == [])
    && (!Begun(d) ==> io == Idle(io))
    && (Begun(d) && !d.failed ==> forall op :: op in AllOps(chkSz, regions) ==> Within(io, op))
    && (forall op :: Within(io, op) ==> op in AllOps(chkSz, regions))
    && (d.kind.iod.Fetch? && d.act && d.pc == P.Outside ==> !d.failed)
  }

  /** Byte x of region r holds the byte of the medium that belongs to it. */
  predicate Synced(w: World, r: Region, x: nat) {
    r.Lo() <= x && w.dma(r.chk, x) == w.Dev(r.media, DevLo(r) + (x - r.Lo()))
  }

  ghost predicate DidHit(did: seq<Op>, c: ChunkId, x: nat) {
    exists op :: op in did && op.chk == c && Hits(op, x)
  }

  /** Memory and media agree on every byte that was transferred; for an update this needs regions that do not write the
      same place. */
  ghost predicate InSync(w: World, k: Kind, regions: seq<Region>, did: seq<Op>) {
    k.iod.Fetch? || (k.iod.Update? && DevDisjoint(regions)) ==>
      forall g, x: nat :: 0 <= g < |regions| && InMem(regions[g], regions[g].chk, x)
                          && DidHit(did, regions[g].chk, x) ==>
                            Synced(w, regions[g], x)
  }

  /** An update does not change its memory, a fetch not its media. */
  ghost predicate Frozen(w: World, k: Kind, regions: seq<Region>, was: World) {
    if k.iod.Update? then forall g, c, x :: 0 <= g < |regions| && InMem(regions[g], c, x) ==>
      w.dma(c, x) == was.dma(c, x)
    else forall g, m, a :: 0 <= g < |regions| && InDev(regions[g], m, a) ==> w.Dev(m, a) == was.Dev(m, a)
  }

  ghost predicate Data(w: World, d: P.Iod, regions: seq<Region>, io: Rw) {
    (!d.failed ==> InSync(w, d.kind, regions, io.did)) && (Begun(d) ==> Frozen(w, d.kind, regions, io.was))
  }

  ghost predicate Sound(s: R.Sys) {
    forall x {:trigger Look(x)} :: Look(x) ==> R.SysInv(s)
  }

  ghost predicate IoOk(s: All, i: nat)
    requires Sized(s) && i < |s.ios|
  {
    && Booked(s.sys.pool.cfg.chkSz, s.sys.ctl.iods[i], s.sys.rs[i].regions, s.ios[i])
    && Data(s.w, s.sys.ctl.iods[i], s.sys.rs[i].regions, s.ios[i])
  }

  ghost predicate Books(s: All)
    requires Sized(s)
  {
    forall x {:trigger Look(x)} :: Look(x) ==> forall i :: 0 <= i < |s.ios| ==> IoOk(s, i)
  }

  ghost predicate AllInv(s: All) {
    Sized(s) && Sound(s.sys) && Books(s)
  }

  lemma IoAt(s: All, i: nat)
    requires Sized(s) && Books(s) && i < |s.ios|
    ensures IoOk(s, i)
  {
    assert Look(0);
  }

  lemma CloseBooks(s: All)
    requires Sized(s) && forall i :: 0 <= i < |s.ios| ==> IoOk(s, i)
    ensures Books(s)
  {
  }

  // ---------------------------------------------------------------------------------------------
  // One transfer and one descriptor
  // ---------------------------------------------------------------------------------------------

  ghost predicate Laid(chkSz: nat, regions: seq<Region>) {
    0 < chkSz && Wfs(regions) && MemDisjoint(regions)
  }

  /** Others leave a descriptor's data alone. */
  lemma DataKept(w: World, v: World, d: P.Iod, e: P.Iod, regions: seq<Region>, io: Rw)
    requires Data(w, d, regions, io) && Leaves(w, v, regions) && Wfs(regions)
    requires e.kind == d.kind && e.failed == d.failed && Begun(e) == Begun(d)
    ensures Data(v, e, regions, io)
  {
    forall g, x: nat | 0 <= g < |regions| && InMem(regions[g], regions[g].chk, x) && Synced(w, regions[g], x)
      ensures Synced(v, regions[g], x)
    {
      assert InDev(regions[g], regions[g].media, DevLo(regions[g]) + (x - regions[g].Lo()));
    }
  }

  lemma DidSnoc(did: seq<Op>, op: Op, c: ChunkId, x: nat)
    ensures DidHit(did + [op], c, x) ==> DidHit(did, c, x) || (op.chk == c && Hits(op, x))
  {
    if DidHit(did + [op], c, x) {
      var o :| o in did + [op] && o.chk == c && Hits(o, x);
    }
  }

  /** A transfer that hits byte x of a region in memory hits the byte of the medium that belongs to it. */
  lemma HitsBoth(chkSz: nat, regions: seq<Region>, op: Op, g: nat, x: nat)
    requires Laid(chkSz, regions) && op in AllOps(chkSz, regions)
    requires g < |regions| && InMem(regions[g], regions[g].chk, x) && op.chk == regions[g].chk && Hits(op, x)
    ensures HitsDev(op, regions[g].media, DevLo(regions[g]) + (x - regions[g].Lo()))
  {
    var k := OwnerOf(chkSz, regions, op);
    assert k == g;
  }

  lemma ReadData(chkSz: nat, w: World, d: P.Iod, regions: seq<Region>, io: Rw, op: Op)
    requires Laid(chkSz, regions) && op in AllOps(chkSz, regions) && d.kind.iod.Fetch? && Data(w, d, regions, io)
    ensures !d.failed ==> InSync(Do(false, w, op), d.kind, regions, io.did + [op])
    ensures Begun(d) ==> Frozen(Do(false, w, op), d.kind, regions, io.was)
  {
    if !d.failed {
      forall g, x: nat | 0 <= g < |regions| && InMem(regions[g], regions[g].chk, x)
        && DidHit(io.did + [op], regions[g].chk, x)
        ensures Synced(Do(false, w, op), regions[g], x)
      {
        DidSnoc(io.did, op, regions[g].chk, x);
        ReadStep(chkSz, w, op, regions, g, x);
      }
    }
  }

  lemma WriteData(chkSz: nat, w: World, d: P.Iod, regions: seq<Region>, io: Rw, op: Op)
    requires Laid(chkSz, regions) && op in AllOps(chkSz, regions) && d.kind.iod.Update? && Data(w, d, regions, io)
    ensures !d.failed ==> InSync(Do(true, w, op), d.kind, regions, io.did + [op])
    ensures Begun(d) ==> Frozen(Do(true, w, op), d.kind, regions, io.was)
  {
    if DevDisjoint(regions) && !d.failed {
      forall g, x: nat | 0 <= g < |regions| && InMem(regions[g], regions[g].chk, x)
        && DidHit(io.did + [op], regions[g].chk, x)
        ensures Synced(Do(true, w, op), regions[g], x)
      {
        DidSnoc(io.did, op, regions[g].chk, x);
        WriteStep(chkSz, w, op, regions, g, x);
        if op.chk == regions[g].chk && Hits(op, x) {
          HitsBoth(chkSz, regions, op, g, x);
        }
      }
    }
  }

  /** Some bytes of a read or a write arrive. */
  lemma DriftData(chkSz: nat, write: bool, w: World, v: World, d: P.Iod, regions: seq<Region>, io: Rw, op: Op)
    requires Laid(chkSz, regions) && op in AllOps(chkSz, regions) && Mixed(write, w, v, op) && Data(w, d, regions, io)
    requires if write then d.kind.iod.Update? else d.kind.iod.Fetch?
    ensures Data(v, d, regions, io)
  {
    if !d.failed && (write ==> DevDisjoint(regions)) {
      forall g, x: nat | 0 <= g < |regions| && InMem(regions[g], regions[g].chk, x) && DidHit(io.did, regions[g].chk, x)
        ensures Synced(v, regions[g], x)
      {
        assert Synced(w, regions[g], x);
        if write {
          WriteStep(chkSz, w, op, regions, g, x);
        } else {
          ReadStep(chkSz, w, op, regions, g, x);
        }
      }
    }
  }

  // ---------------------------------------------------------------------------------------------
  // What the invariant of the system gives
  // ---------------------------------------------------------------------------------------------

  lemma Opened(s: R.Sys)
    requires Sound(s)
    ensures R.SysInv(s)
  {
    assert Look(0);
  }

  lemma Closed(s: R.Sys)
    requires R.SysInv(s)
    ensures Sound(s)
  {
  }

  lemma HeldFacts(s: R.Sys, i: nat)
    requires Sound(s) && i < |s.rs| && i < |s.ctl.iods|
    ensures Laid(s.pool.cfg.chkSz, s.rs[i].regions) && I.IodOk(s.ctl.iods[i]) && Inv(s.pool, s.rs)
  {
    Opened(s);
    I.IodAt(s.ctl, i);
    assert s.pool.cfg.Valid() by { PoolInv.Open(s.pool, s.rs); }
    RegionsWf(s.pool, s.rs, i);
    forall g, k | 0 <= g < k < |s.rs[i].regions| ensures Disjoint(s.rs[i].regions[g], s.rs[i].regions[k]) {
      BytesDisjoint(s.pool, s.rs, i, g, i, k);
    }
  }

  lemma MovedSound(s: R.Sys, m: R.Move)
    requires Sound(s) && |s.rs| == |s.items| == |s.places| == |s.ctl.iods| && R.Enabled(s, m)
    ensures Sound(Moved(s, m)) && Moved(s, m).pool.cfg == s.pool.cfg
  {
    Opened(s);
    R.StepInv(s, m);
    R.StepCfg(s, m);
    Closed(Moved(s, m));
  }

  lemma MovedOthers(s: R.Sys, m: R.Move, k: nat)
    requires Sound(s) && |s.rs| == |s.items| == |s.places| == |s.ctl.iods| && R.Enabled(s, m) && k < |s.rs|
             && k != R.Who(m)
    ensures R.Untouched(s, Moved(s, m), k)
  {
    Opened(s);
    R.StepOthers(s, m, k);
  }

  // ---------------------------------------------------------------------------------------------
  // What the protocol does to the moving descriptor
  // ---------------------------------------------------------------------------------------------

  predicate Enters(d: P.Iod, e: P.Iod) {
    e.pc == P.Issuing && d.pc != P.Issuing
  }

  /** A descriptor that holds a buffer and does not start its transfers goes on as before. */
  predicate GoesOn(d: P.Iod, e: P.Iod) {
    && e.posted == d.posted && e.kind == d.kind && e.failed == d.failed
    && (e.kind.iod.Fetch? && e.pc == P.Outside ==> d.pc == P.Outside || !e.failed)
  }

  /** How a control step changes its descriptor, as far as transfers are concerned. */
  predicate Turned(d: P.Iod, e: P.Iod) {
    && e.kind.iod == d.kind.iod
    && (e.act && Enters(d, e) ==> !d.act || (d.pc == P.Outside && !d.posted))
    && (e.act && !d.act && e.pc != P.Issuing ==> !e.kind.iod.Fetch? && !e.posted)
    && (e.act && d.act && !Enters(d, e) ==> GoesOn(d, e))
  }

  lemma ActivateTurned(c: P.Ctl, i: nat, evOk: bool)
    requires i < |c.iods| && !c.iods[i].act
    ensures var e := P.Activate(c, i, evOk).iods[i];
            e.kind == c.iods[i].kind && (e.act && e.pc != P.Issuing ==> !e.kind.iod.Fetch? && !e.posted)
  {
    var c1 := P.Join(c, i);
    assert P.Set(c1, i, c1.iods[i]) == c1;
    I.DropSelf(c1, i, c1.iods[i]);
  }

  lemma TriedTurned(c: P.Ctl, i: nat, out: P.Outcome)
    requires i < |c.iods| && !c.iods[i].act
    ensures var e := P.Tried(c, i, out).iods[i];
            e.kind == c.iods[i].kind && (e.act && e.pc != P.Issuing ==> !e.kind.iod.Fetch? && !e.posted)
  {
    match out
    case Mapped(regions, evOk) =>
      var d := c.iods[i].(prep := true, pc := P.Outside, waits := 0);
      I.OutSelf(c, i, d);
      ActivateTurned(P.FifoOut(P.Set(c, i, d), i), i, evOk);
    case Failed(retry) =>
      I.OutSelf(c, i, c.iods[i].(pc := P.Outside, waits := 0));
  }

  lemma PostTurned(c: P.Ctl, i: nat, err: bool, async: bool)
    requires i < |c.iods| && I.IodOk(c.iods[i]) && P.Enabled(c, P.PostIod(i, err, async))
    ensures Turned(c.iods[i], P.Post(c, i, err, async).iods[i])
  {
    I.DropSelf(c, i, c.iods[i].(inflights := 0, failed := err, posted := true));
  }

  lemma EndTurned(c: P.Ctl, i: nat)
    requires i < |c.iods| && I.IodOk(c.iods[i]) && c.iods[i].pc == P.Issuing
    ensures Turned(c.iods[i], P.EndIssue(c, i).iods[i])
  {
    I.DropSelf(c, i, P.Unbiased(c.iods[i], P.Outside));
  }

  lemma ResumeTurned(c: P.Ctl, i: nat)
    requires i < |c.iods| && I.IodOk(c.iods[i]) && c.iods[i].pc == P.DmaWait
    ensures Turned(c.iods[i], P.AfterDma(c, i).iods[i]) && P.AfterDma(c, i).iods[i].pc != P.Issuing
  {
    I.DropSelf(c, i, c.iods[i].(pc := P.Outside));
  }

  lemma PrepTurned(c: P.Ctl, i: nat, kind: Kind, nb: bool, dst: bool, out: P.Outcome)
    requires i < |c.iods| && I.IodOk(c.iods[i]) && P.Enabled(c, P.Prep(i, kind, nb, dst, out))
    ensures Turned(c.iods[i], P.Step(c, P.Prep(i, kind, nb, dst, out)).iods[i])
  {
    TriedTurned(P.Start(c, i, kind, nb, dst), i, out);
  }

  lemma StepTurned(c: P.Ctl, l: P.Label)
    requires P.Enabled(c, l) && I.IodOk(c.iods[l.i]) && !l.IssueOne? && !l.Done?
    ensures Turned(c.iods[l.i], P.Step(c, l).iods[l.i])
    ensures c.iods[l.i].pc == P.Issuing ==> l.EndRw?
  {
    match l
    case Prep(i, kind, nb, dst, out) => PrepTurned(c, i, kind, nb, dst, out);
    case Again(i, out) => TriedTurned(c, i, out);
    case PostIod(i, err, async) => PostTurned(c, i, err, async);
    case EndRw(i) => EndTurned(c, i);
    case Resume(i) => ResumeTurned(c, i);
  }

  lemma PrepCtl(s: R.Sys, m: R.Move)
    requires |s.rs| == |s.items| == |s.places| == |s.ctl.iods| && R.Enabled(s, m) && m.Prep?
    ensures P.Enabled(s.ctl, R.LabelOf(s, m)) && Moved(s, m).ctl == P.Step(s.ctl, R.LabelOf(s, m))
  {
    assert P.Start(s.ctl, m.i, m.kind, m.nonBlocking, m.copyDst).iods[m.i].kind == m.kind;
  }

  lemma RetryCtl(s: R.Sys, m: R.Move)
    requires |s.rs| == |s.items| == |s.places| == |s.ctl.iods| && R.Enabled(s, m) && m.Retry?
    ensures P.Enabled(s.ctl, R.LabelOf(s, m)) && Moved(s, m).ctl == P.Step(s.ctl, R.LabelOf(s, m))
  {
  }

  lemma OtherCtl(s: R.Sys, m: R.Move)
    requires |s.rs| == |s.items| == |s.places| == |s.ctl.iods| && R.Enabled(s, m) && m.Other?
    ensures P.Enabled(s.ctl, m.l) && Moved(s, m).ctl == P.Step(s.ctl, m.l)
    ensures s.ctl.iods[m.l.i].act && Moved(s, m).ctl.iods[m.l.i].prep ==> Moved(s, m).rs == s.rs
  {
  }

  lemma MovedCtl(s: R.Sys, m: R.Move)
    requires |s.rs| == |s.items| == |s.places| == |s.ctl.iods| && R.Enabled(s, m)
    ensures var l := R.LabelOf(s, m);
            && P.Enabled(s.ctl, l) && l.i == R.Who(m) && Moved(s, m).ctl == P.Step(s.ctl, l)
            && (m.Other? && s.ctl.iods[l.i].act && Moved(s, m).ctl.iods[l.i].prep ==> Moved(s, m).rs == s.rs)
  {
    match m
    case Prep(_, _, _, _, _, _) => PrepCtl(s, m);
    case Retry(_, _, _) => RetryCtl(s, m);
    case Other(_) => OtherCtl(s, m);
  }

  // ---------------------------------------------------------------------------------------------
  // The invariant of the moving descriptor
  // ---------------------------------------------------------------------------------------------

  /** A control step other than a failed attempt to issue. */
  lemma CtlKeeps(chkSz: nat, d: P.Iod, e: P.Iod, regions: seq<Region>, after: seq<Region>, io: Rw, w: World)
    requires I.IodOk(d) && I.IodOk(e) && Turned(d, e) && e.outstanding == d.outstanding
    requires Booked(chkSz, d, regions, io) && Data(w, d, regions, io)
    requires d.act && e.act ==> after == regions
    requires d.pc == P.Issuing && e.pc != P.Issuing ==> io.todo == []
    ensures Booked(chkSz, e, after, NextIo(io, d, e, AllOps(chkSz, after), false, w))
    ensures Data(w, e, after, NextIo(io, d, e, AllOps(chkSz, after), false, w))
  {
  }

  lemma TailWithin(io: Rw, op: Op)
    requires io.todo != []
    ensures Within(io, op) <==> op == io.todo[0] || Within(io.(todo := io.todo[1..]), op)
  {
  }

  /** A failed attempt to issue. */
  lemma SkipKeeps(chkSz: nat, d: P.Iod, regions: seq<Region>, io: Rw, w: World)
    requires d.pc == P.Issuing && d.act && io.todo != [] && Booked(chkSz, d, regions, io) && Data(w, d, regions, io)
    ensures var e := P.Issued(d, true);
            var next := NextIo(io, d, e, AllOps(chkSz, regions), true, w);
            Booked(chkSz, e, regions, next) && Data(w, e, regions, next)
  {
    forall op ensures Within(io.(todo := io.todo[1..]), op) ==> Within(io, op) {
      TailWithin(io, op);
    }
  }

  lemma SendKeeps(chkSz: nat, d: P.Iod, regions: seq<Region>, io: Rw, w: World)
    requires d.pc == P.Issuing && d.act && io.todo != [] && Booked(chkSz, d, regions, io) && Data(w, d, regions, io)
    ensures Booked(chkSz, P.Issued(d, false), regions, Sent(io)) && Data(w, P.Issued(d, false), regions, Sent(io))
  {
    forall op ensures Within(Sent(io), op) <==> Within(io, op) {
      TailWithin(io, op);
    }
  }

  lemma CopyKeeps(chkSz: nat, d: P.Iod, regions: seq<Region>, io: Rw)
    requires d.pc == P.Issuing && d.act && io.todo != [] && Booked(chkSz, d, regions, io)
    ensures Booked(chkSz, d, regions, Copied(io)) && io.todo[0] in AllOps(chkSz, regions)
  {
    forall op ensures Within(Copied(io), op) <==> Within(io, op) {
      TailWithin(io, op);
    }
    assert Within(io, io.todo[0]);
  }

  lemma ArrivedWithin(io: Rw, k: nat, err: bool, op: Op)
    requires k < |io.sent|
    ensures Within(Arrived(io, k, err), op) ==> Within(io, op)
    ensures !err && Within(io, op) ==> Within(Arrived(io, k, err), op)
  {
    var r := Without(io.sent, k);
    assert forall n :: 0 <= n < |r| ==> r[n] == io.sent[if n < k then n else n + 1];
    assert io.sent == io.sent[..k] + [io.sent[k]] + io.sent[k + 1..];
  }

  /** A completion after which the descriptor keeps its buffer. */
  lemma ArriveKeeps(chkSz: nat, d: P.Iod, e: P.Iod, regions: seq<Region>, io: Rw, k: nat, err: bool)
    requires k < |io.sent| && Booked(chkSz, d, regions, io) && I.IodOk(d)
    requires e.outstanding == d.outstanding - 1 && e.pc == d.pc && e.act && e.kind == d.kind && e.posted == d.posted
    requires e.failed == (d.failed || err)
    ensures Begun(d) && Booked(chkSz, e, regions, Arrived(io, k, err)) && io.sent[k] in AllOps(chkSz, regions)
  {
    forall op ensures (Within(Arrived(io, k, err), op) ==> Within(io, op))
                      && (!err && Within(io, op) ==> Within(Arrived(io, k, err), op)) {
      ArrivedWithin(io, k, err, op);
    }
    assert Within(io, io.sent[k]);
  }

  lemma DoneTurned(c: P.Ctl, i: nat, err: bool)
    requires i < |c.iods|
    ensures var e := P.Complete(c, i, err).iods[i];
            e.kind == c.iods[i].kind && (e.act ==> e == P.Completed(c.iods[i], err))
  {
    I.DropSelf(c, i, P.Completed(c.iods[i], err));
  }

  // ---------------------------------------------------------------------------------------------
  // Steps keep the invariant
  // ---------------------------------------------------------------------------------------------

  lemma AllFacts(s: All, i: nat)
    requires AllInv(s) && i < |s.ios|
    ensures IoOk(s, i) && Laid(s.sys.pool.cfg.chkSz, s.sys.rs[i].regions) && I.IodOk(s.sys.ctl.iods[i])
            && Inv(s.sys.pool, s.sys.rs)
  {
    IoAt(s, i);
    HeldFacts(s.sys, i);
  }

  lemma BookedKept(chkSz: nat, d: P.Iod, e: P.Iod, regions: seq<Region>, io: Rw)
    requires Booked(chkSz, d, regions, io) && I.Alike(d, e) && I.IodOk(d) && I.IodOk(e)
    ensures Booked(chkSz, e, regions, io) && Begun(e) == Begun(d)
  {
  }

  /** A descriptor that a step leaves alone. */
  lemma OtherIo(s: All, t: All, k: nat)
    requires AllInv(s) && Sized(t) && Sound(t.sys) && k < |s.ios| == |t.ios| && t.sys.pool.cfg == s.sys.pool.cfg
    requires R.Untouched(s.sys, t.sys, k) && t.ios[k] == s.ios[k] && Leaves(s.w, t.w, s.sys.rs[k].regions)
    ensures IoOk(t, k)
  {
    AllFacts(s, k);
    HeldFacts(t.sys, k);
    BookedKept(s.sys.pool.cfg.chkSz, s.sys.ctl.iods[k], t.sys.ctl.iods[k], s.sys.rs[k].regions, s.ios[k]);
    DataKept(s.w, t.w, s.sys.ctl.iods[k], t.sys.ctl.iods[k], s.sys.rs[k].regions, s.ios[k]);
  }

  lemma CtlSelf(s: All, m: R.Move)
    requires AllInv(s) && Enabled(s, Ctl(m)) && !(m.Other? && m.l.IssueOne?)
    ensures IoOk(Step(s, Ctl(m)), R.Who(m))
  {
    var i := R.Who(m);
    var t := Moved(s.sys, m);
    var l := R.LabelOf(s.sys, m);
    AllFacts(s, i);
    MovedSound(s.sys, m);
    HeldFacts(t, i);
    MovedCtl(s.sys, m);
    StepTurned(s.sys.ctl, l);
    F.OutstandingStep(s.sys.ctl, l);
    CtlKeeps(s.sys.pool.cfg.chkSz, s.sys.ctl.iods[i], t.ctl.iods[i], s.sys.rs[i].regions, t.rs[i].regions, s.ios[i],
             s.w);
  }

  lemma SkipSelf(s: All, i: nat)
    requires AllInv(s) && Enabled(s, Ctl(R.Other(P.IssueOne(i, true))))
    ensures IoOk(Step(s, Ctl(R.Other(P.IssueOne(i, true)))), i)
  {
    AllFacts(s, i);
    SkipKeeps(s.sys.pool.cfg.chkSz, s.sys.ctl.iods[i], s.sys.rs[i].regions, s.ios[i], s.w);
  }

  lemma CtlInv(s: All, m: R.Move)
    requires AllInv(s) && Enabled(s, Ctl(m))
    ensures AllInv(Step(s, Ctl(m)))
  {
    var t := Step(s, Ctl(m));
    MovedSound(s.sys, m);
    forall k | 0 <= k < |t.ios| ensures IoOk(t, k) {
      if k != R.Who(m) {
        MovedOthers(s.sys, m, k);
        OtherIo(s, t, k);
      } else if m.Other? && m.l.IssueOne? {
        SkipSelf(s, k);
      } else {
        CtlSelf(s, m);
      }
    }
    CloseBooks(t);
  }

  lemma SendInv(s: All, i: nat)
    requires AllInv(s) && Enabled(s, Send(i))
    ensures AllInv(Step(s, Send(i)))
  {
    var m := R.Other(P.IssueOne(i, false));
    var t := Step(s, Send(i));
    MovedSound(s.sys, m);
    forall k | 0 <= k < |t.ios| ensures IoOk(t, k) {
      if k != i {
        MovedOthers(s.sys, m, k);
        OtherIo(s, t, k);
      } else {
        AllFacts(s, i);
        SendKeeps(s.sys.pool.cfg.chkSz, s.sys.ctl.iods[i], s.sys.rs[i].regions, s.ios[i], s.w);
      }
    }
    CloseBooks(t);
  }

  /** Transfers of descriptor i leave the data of the others alone. */
  lemma OthersLeft(s: All, i: nat, k: nat, op: Op, after: World)
    requires Sized(s) && i < |s.ios| && Scribbles(Writes(s, i), s.w, after, op)
    requires AllInv(s) && i < |s.ios| && k < |s.ios| && k != i && (Writes(s, i) ==> Alone(s, i))
    requires op in AllOps(s.sys.pool.cfg.chkSz, s.sys.rs[i].regions)
    ensures Leaves(s.w, after, s.sys.rs[k].regions)
  {
    HeldFacts(s.sys, k);
    OthersLeave(s.sys.pool, s.sys.rs, k, i, Writes(s, i), s.w, after, op);
  }

  /** One of its transfers is carried out. */
  lemma OwnData(s: All, i: nat, op: Op)
    requires AllInv(s) && i < |s.ios| && op in AllOps(s.sys.pool.cfg.chkSz, s.sys.rs[i].regions)
             && Begun(s.sys.ctl.iods[i])
    requires s.sys.ctl.iods[i].kind.iod.Fetch? || s.sys.ctl.iods[i].kind.iod.Update?
    ensures var d := s.sys.ctl.iods[i];
            var v := Do(Writes(s, i), s.w, op);
            && (!d.failed ==> InSync(v, d.kind, s.sys.rs[i].regions, s.ios[i].did + [op]))
            && Frozen(v, d.kind, s.sys.rs[i].regions, s.ios[i].was)
  {
    AllFacts(s, i);
    if Writes(s, i) {
      WriteData(s.sys.pool.cfg.chkSz, s.w, s.sys.ctl.iods[i], s.sys.rs[i].regions, s.ios[i], op);
    } else {
      ReadData(s.sys.pool.cfg.chkSz, s.w, s.sys.ctl.iods[i], s.sys.rs[i].regions, s.ios[i], op);
    }
  }

  lemma CopyInv(s: All, i: nat)
    requires AllInv(s) && Enabled(s, Copy(i))
    ensures AllInv(Step(s, Copy(i)))
  {
    var t := Step(s, Copy(i));
    AllFacts(s, i);
    CopyKeeps(s.sys.pool.cfg.chkSz, s.sys.ctl.iods[i], s.sys.rs[i].regions, s.ios[i]);
    forall k | 0 <= k < |t.ios| ensures IoOk(t, k) {
      if k != i {
        DoScribbles(Writes(s, i), s.w, s.ios[i].todo[0]);
        OthersLeft(s, i, k, s.ios[i].todo[0], t.w);
        OtherIo(s, t, k);
      } else {
        OwnData(s, i, s.ios[i].todo[0]);
      }
    }
    CloseBooks(t);
  }

  /** The caller of another descriptor leaves the data alone. */
  lemma FillLeaves(s: All, i: nat, after: World, k: nat)
    requires AllInv(s) && Enabled(s, Fill(i, after)) && k < |s.ios| && k != i
    ensures Leaves(s.w, after, s.sys.rs[k].regions)
  {
    HeldFacts(s.sys, i);
    forall g, c, x | 0 <= g < |s.sys.rs[k].regions| && InMem(s.sys.rs[k].regions[g], c, x)
      ensures after.dma(c, x) == s.w.dma(c, x)
    {
      forall h | 0 <= h < |s.sys.rs[i].regions| ensures !InMem(s.sys.rs[i].regions[h], c, x) {
        BytesDisjoint(s.sys.pool, s.sys.rs, k, g, i, h);
      }
    }
  }

  lemma FillInv(s: All, i: nat, after: World)
    requires AllInv(s) && Enabled(s, Fill(i, after))
    ensures AllInv(Step(s, Fill(i, after)))
  {
    var t := Step(s, Fill(i, after));
    AllFacts(s, i);
    forall k | 0 <= k < |t.ios| ensures IoOk(t, k) {
      if k != i {
        FillLeaves(s, i, after, k);
        OtherIo(s, t, k);
      }
    }
    CloseBooks(t);
  }

  lemma DriftInv(s: All, a: Act)
    requires AllInv(s) && Enabled(s, a) && a.Drift?
    ensures AllInv(Step(s, a))
  {
    var t := Step(s, a);
    AllFacts(s, a.i);
    assert Within(s.ios[a.i], s.ios[a.i].sent[a.k]);
    forall k | 0 <= k < |t.ios| ensures IoOk(t, k) {
      if k != a.i {
        OthersLeft(s, a.i, k, s.ios[a.i].sent[a.k], t.w);
        OtherIo(s, t, k);
      } else {
        DriftData(s.sys.pool.cfg.chkSz, Writes(s, k), s.w, t.w, s.sys.ctl.iods[k], s.sys.rs[k].regions, s.ios[k],
                  s.ios[k].sent[a.k]);
      }
    }
    CloseBooks(t);
  }

  lemma ArriveStays(s: All, a: Act)
    requires AllInv(s) && Enabled(s, a) && a.Arrive?
    requires Moved(s.sys, R.Other(P.Done(a.i, a.err))).ctl.iods[a.i].act
    ensures IoOk(Step(s, a), a.i)
  {
    var i := a.i;
    var m := R.Other(P.Done(i, a.err));
    var t := Moved(s.sys, m);
    AllFacts(s, i);
    MovedSound(s.sys, m);
    HeldFacts(t, i);
    DoneTurned(s.sys.ctl, i, a.err);
    MovedCtl(s.sys, m);
    ArriveKeeps(s.sys.pool.cfg.chkSz, s.sys.ctl.iods[i], t.ctl.iods[i], s.sys.rs[i].regions, s.ios[i], a.k, a.err);
    if !a.err {
      OwnData(s, i, s.ios[i].sent[a.k]);
    }
  }

  /** A descriptor without a buffer has no transfers. */
  lemma IdleBooks(chkSz: nat, d: P.Iod, regions: seq<Region>, io: Rw, w: World)
    requires I.IodOk(d) && !d.act
    ensures Booked(chkSz, d, regions, Idle(io)) && Data(w, d, regions, Idle(io))
  {
  }

  lemma ArriveLeaves(s: All, a: Act)
    requires AllInv(s) && Enabled(s, a) && a.Arrive?
    requires !Moved(s.sys, R.Other(P.Done(a.i, a.err))).ctl.iods[a.i].act
    ensures IoOk(Step(s, a), a.i)
  {
    var m := R.Other(P.Done(a.i, a.err));
    var t := Moved(s.sys, m);
    MovedSound(s.sys, m);
    HeldFacts(t, a.i);
    IdleBooks(t.pool.cfg.chkSz, t.ctl.iods[a.i], t.rs[a.i].regions, Arrived(s.ios[a.i], a.k, a.err), Step(s, a).w);
  }

  lemma ArriveOther(s: All, a: Act, k: nat)
    requires AllInv(s) && Enabled(s, a) && a.Arrive? && k < |s.ios| && k != a.i
    requires s.ios[a.i].sent[a.k] in AllOps(s.sys.pool.cfg.chkSz, s.sys.rs[a.i].regions)
    ensures Sized(Step(s, a)) && IoOk(Step(s, a), k)
  {
    var m := R.Other(P.Done(a.i, a.err));
    var t := Step(s, a);
    MovedSound(s.sys, m);
    MovedOthers(s.sys, m, k);
    DoScribbles(Writes(s, a.i), s.w, s.ios[a.i].sent[a.k]);
    OthersLeft(s, a.i, k, s.ios[a.i].sent[a.k], t.w);
    OtherIo(s, t, k);
  }

  lemma ArriveInv(s: All, a: Act)
    requires AllInv(s) && Enabled(s, a) && a.Arrive?
    ensures AllInv(Step(s, a))
  {
    var m := R.Other(P.Done(a.i, a.err));
    var t := Step(s, a);
    MovedSound(s.sys, m);
    IoAt(s, a.i);
    assert Within(s.ios[a.i], s.ios[a.i].sent[a.k]);
    forall k | 0 <= k < |t.ios| ensures IoOk(t, k) {
      if k != a.i {
        ArriveOther(s, a, k);
      } else if Moved(s.sys, m).ctl.iods[k].act {
        ArriveStays(s, a);
      } else {
        ArriveLeaves(s, a);
      }
    }
    CloseBooks(t);
  }

  /** Every step of any descriptor, of SPDK and of the callers keeps the invariant. */
  lemma StepInv(s: All, a: Act)
    requires AllInv(s) && Enabled(s, a)
    ensures AllInv(Step(s, a))
  {
    match a
    case Ctl(m) => CtlInv(s, m);
    case Copy(i) => CopyInv(s, i);
    case Send(i) => SendInv(s, i);
    case Drift(i, k, after) => DriftInv(s, a);
    case Arrive(i, k, err, after) => ArriveInv(s, a);
    case Fill(i, after) => FillInv(s, i, after);
  }

  // ---------------------------------------------------------------------------------------------
  // Runs
  // ---------------------------------------------------------------------------------------------

  ghost predicate Init(s: All) {
    Sized(s) && R.Init(s.sys) && forall i :: 0 <= i < |s.ios| ==> s.ios[i] == Idle(s.ios[i])
  }

  /** The state after a run; a step that cannot be taken is skipped. */
  ghost function After(s: All, acts: seq<Act>): All {
    if acts == [] then s
    else
      var t := After(s, acts[..|acts| - 1]);
      if Enabled(t, acts[|acts| - 1]) then Step(t, acts[|acts| - 1]) else t
  }

  lemma InitInv(s: All)
    requires Init(s)
    ensures AllInv(s)
  {
    R.RunInv(s.sys, []);
    Closed(s.sys);
    forall i | 0 <= i < |s.ios| ensures IoOk(s, i) {
      InitIod(s.sys, i);
    }
    CloseBooks(s);
  }

  lemma InitIod(s: R.Sys, i: nat)
    requires R.Init(s) && i < |s.ctl.iods|
    ensures !s.ctl.iods[i].act && s.ctl.iods[i].pc == P.Outside && s.ctl.iods[i].outstanding == 0
  {
  }

  lemma {:induction false} RunInv(s: All, acts: seq<Act>)
    requires Init(s)
    ensures AllInv(After(s, acts))
    decreases |acts|
  {
    if acts == [] {
      InitInv(s);
    } else {
      RunInv(s, acts[..|acts| - 1]);
      var t := After(s, acts[..|acts| - 1]);
      if Enabled(t, acts[|acts| - 1]) {
        StepInv(t, acts[|acts| - 1]);
      }
    }
  }

  // ---------------------------------------------------------------------------------------------
  // What a finished descriptor promises
  // ---------------------------------------------------------------------------------------------

  /** All transfers of the regions were carried out. */
  ghost predicate Carries(chkSz: nat, w: World, k: Kind, regions: seq<Region>, did: seq<Op>, was: World) {
    && InSync(w, k, regions, did) && Frozen(w, k, regions, was)
    && forall op :: op in AllOps(chkSz, regions) ==> op in did
  }

  /** Nothing left to issue and nothing outstanding. */
  lemma NoneLeft(chkSz: nat, d: P.Iod, regions: seq<Region>, io: Rw)
    requires Booked(chkSz, d, regions, io) && Begun(d) && !d.failed && io.todo == [] && d.outstanding == 0
    ensures forall op :: op in AllOps(chkSz, regions) ==> op in io.did
  {
    forall op | op in AllOps(chkSz, regions) ensures op in io.did {
      assert Within(io, op);
    }
  }

  /** When all transfers were carried out, every byte of every region was reached. */
  lemma AllReached(chkSz: nat, regions: seq<Region>, did: seq<Op>, g: nat, x: nat)
    requires Laid(chkSz, regions) && g < |regions| && InMem(regions[g], regions[g].chk, x)
    requires forall op :: op in AllOps(chkSz, regions) ==> op in did
    ensures DidHit(did, regions[g].chk, x)
  {
    var op := OpsCover(chkSz, regions[g], x);
    AllOpsHas(chkSz, regions, g, op);
    OpsIn(chkSz, regions[g], op);
  }

  /** The buffer of an extent and the medium agree when the descriptor's transfers were all carried out. */
  lemma ExtentSynced(chkSz: nat, w: World, k: Kind, regions: seq<Region>, did: seq<Op>, was: World, g: nat, e: Extent,
                     b: Buf, j: nat)
    requires Laid(chkSz, regions) && Carries(chkSz, w, k, regions, did, was)
    requires k.iod.Fetch? || (k.iod.Update? && DevDisjoint(regions))
    requires g < |regions| && Covers(regions[g], e, b) && j < e.len
    ensures Get(w, b, j) == w.Dev(e.media, e.off + j)
    ensures if k.iod.Update? then Get(w, b, j) == Get(was, b, j)
            else w.Dev(e.media, e.off + j) == was.Dev(e.media, e.off + j)
  {
    var x := b.off + j;
    BufferByte(regions[g], e, b, j);
    AllReached(chkSz, regions, did, g, x);
    assert Synced(w, regions[g], x);
    assert InDev(regions[g], regions[g].media, e.off + j);
  }

  lemma PreparedAt(s: R.Sys, i: nat)
    requires Sound(s) && |s.rs| == |s.items| == |s.places| == |s.ctl.iods| && i < |s.rs| && s.ctl.iods[i].prep
    ensures Prepared(s.pool, s.rs, i, s.items[i], s.places[i]) && (s.ctl.iods[i].act <==> s.rs[i].regions != [])
  {
    Opened(s);
    assert R.Link(s, i);
  }

  /** What holds of a fetch that is prepared and back with its caller. */
  lemma FetchDone(s: All, i: nat)
    requires AllInv(s) && i < |s.ios|
    requires var d := s.sys.ctl.iods[i];
             d.kind.iod.Fetch? && d.act && d.pc == P.Outside
    ensures Carries(s.sys.pool.cfg.chkSz, s.w, s.sys.ctl.iods[i].kind, s.sys.rs[i].regions, s.ios[i].did, s.ios[i].was)
  {
    AllFacts(s, i);
    NoneLeft(s.sys.pool.cfg.chkSz, s.sys.ctl.iods[i], s.sys.rs[i].regions, s.ios[i]);
  }

  lemma FetchAt(t: All, i: nat, k: nat, x: nat)
    requires AllInv(t) && i < |t.ios| && k < |t.sys.items[i]| == |t.sys.places[i]|
    requires !t.sys.items[i][k].ext.hole && x < t.sys.items[i][k].ext.len
    requires var d := t.sys.ctl.iods[i];
             d.kind.iod.Fetch? && d.prep && d.pc == P.Outside
    ensures var e := t.sys.items[i][k].ext;
            var b := t.sys.places[i][k].buf;
            && Get(t.w, b, x) == t.w.Dev(e.media, e.off + x)
            && (b.Dma? ==> Get(t.w, b, x) == t.ios[i].was.Dev(e.media, e.off + x))
  {
    var e, b := t.sys.items[i][k].ext, t.sys.places[i][k].buf;
    PreparedAt(t.sys, i);
    PlaceAt(t.sys.pool, t.sys.rs, i, t.sys.items[i], t.sys.places[i], k);
    if b.Dma? {
      FetchDone(t, i);
      AllFacts(t, i);
      ExtentSynced(t.sys.pool.cfg.chkSz, t.w, t.sys.ctl.iods[i].kind, t.sys.rs[i].regions, t.ios[i].did, t.ios[i].was,
                   t.sys.places[i][k].rg, e, b, x);
    }
  }

  /** Fetch: whatever all descriptors did before, when a prepared fetch descriptor is with its caller, the buffer of
      every extent that is not a hole holds the bytes of its medium, as they are and were when the reads began. */
  lemma FetchInRun(s: All, acts: seq<Act>, t: All, i: nat, k: nat, x: nat)
    requires Init(s) && t == After(s, acts) && Sized(t) && i < |t.ios| && k < |t.sys.items[i]| == |t.sys.places[i]|
    requires !t.sys.items[i][k].ext.hole && x < t.sys.items[i][k].ext.len
    requires var d := t.sys.ctl.iods[i];
             d.kind.iod.Fetch? && d.prep && d.pc == P.Outside
    ensures var e := t.sys.items[i][k].ext;
            var b := t.sys.places[i][k].buf;
            && Get(t.w, b, x) == t.w.Dev(e.media, e.off + x)
            && (b.Dma? ==> Get(t.w, b, x) == t.ios[i].was.Dev(e.media, e.off + x))
  {
    RunInv(s, acts);
    FetchAt(t, i, k, x);
  }

  /** How a posted update gives its buffer back: at the end of issuing, after the wait, or with its last completion. */
  predicate Returned(d: P.Iod, e: P.Iod, l: P.Label) {
    && (l.EndRw? || l.Resume? || l.Done?)
    && e.failed == (d.failed || (l.Done? && l.err))
    && (l.Resume? || l.Done? ==> d.pc != P.Issuing)
  }

  lemma LabelReturned(c: P.Ctl, l: P.Label)
    requires P.Enabled(c, l) && I.IodOk(c.iods[l.i])
    requires c.iods[l.i].act && c.iods[l.i].posted && c.iods[l.i].kind.iod.Update? && !P.Step(c, l).iods[l.i].act
    ensures Returned(c.iods[l.i], P.Step(c, l).iods[l.i], l)
  {
    match l
    case Prep(i, kind, nb, dst, out) =>
    case Again(i, out) =>
    case PostIod(i, err, async) =>
    case IssueOne(i, bad) =>
    case EndRw(i) => I.DropSelf(c, i, P.Unbiased(c.iods[i], P.Outside));
    case Resume(i) => I.DropSelf(c, i, c.iods[i].(pc := P.Outside));
    case Done(i, err) => I.DropSelf(c, i, P.Completed(c.iods[i], err));
  }

  /** A step of the system after which posted update i has given its buffer back, without an error. */
  ghost predicate Gives(s: All, a: Act, i: nat) {
    && Enabled(s, a) && i < |s.ios|
    && var d := s.sys.ctl.iods[i];
       && d.kind.iod.Update? && d.act && d.posted
       && var t := Step(s, a);
          Sized(t) && i < |t.ios| && !t.sys.ctl.iods[i].act && !t.sys.ctl.iods[i].failed
  }

  /** The transfers that were carried out when the buffer is given back. */
  function Carried(s: All, a: Act, i: nat): seq<Op>
    requires i < |s.ios| && (a.Arrive? && a.i == i ==> a.k < |s.ios[i].sent|)
  {
    if a.Arrive? && a.i == i then s.ios[i].did + [s.ios[i].sent[a.k]] else s.ios[i].did
  }

  lemma CtlGives(s: All, m: R.Move, i: nat)
    requires AllInv(s) && Gives(s, Ctl(m), i)
    ensures forall op :: op in AllOps(s.sys.pool.cfg.chkSz, s.sys.rs[i].regions) ==> op in s.ios[i].did
    ensures !s.sys.ctl.iods[i].failed
  {
    if R.Who(m) != i {
      MovedOthers(s.sys, m, i);
    }
    var l := R.LabelOf(s.sys, m);
    AllFacts(s, i);
    MovedCtl(s.sys, m);
    LabelReturned(s.sys.ctl, l);
    F.OutstandingStep(s.sys.ctl, l);
    MovedSound(s.sys, m);
    HeldFacts(Moved(s.sys, m), i);
    NoneLeft(s.sys.pool.cfg.chkSz, s.sys.ctl.iods[i], s.sys.rs[i].regions, s.ios[i]);
  }

  /** The last transfer that was outstanding. */
  lemma LastArrived(chkSz: nat, d: P.Iod, regions: seq<Region>, io: Rw, k: nat)
    requires Booked(chkSz, d, regions, io) && Begun(d) && !d.failed && d.pc != P.Issuing && d.outstanding == 1
             && k < |io.sent|
    ensures io.sent[k] in AllOps(chkSz, regions)
    ensures forall op :: op in AllOps(chkSz, regions) ==> op in io.did + [io.sent[k]]
  {
    assert Within(io, io.sent[k]);
    forall op | op in AllOps(chkSz, regions) ensures op in io.did + [io.sent[k]] {
      assert Within(io, op);
    }
  }

  lemma ArriveGives(s: All, a: Act, i: nat)
    requires AllInv(s) && Gives(s, a, i) && a.Arrive?
    ensures a.i == i && !a.err
    ensures forall op :: op in AllOps(s.sys.pool.cfg.chkSz, s.sys.rs[i].regions) ==> op in Carried(s, a, i)
    ensures s.ios[i].sent[a.k] in AllOps(s.sys.pool.cfg.chkSz, s.sys.rs[i].regions)
    ensures !s.sys.ctl.iods[i].failed
  {
    var m := R.Other(P.Done(a.i, a.err));
    if a.i != i {
      MovedOthers(s.sys, m, i);
    }
    AllFacts(s, i);
    LabelReturned(s.sys.ctl, m.l);
    F.OutstandingStep(s.sys.ctl, m.l);
    MovedSound(s.sys, m);
    HeldFacts(Moved(s.sys, m), i);
    LastArrived(s.sys.pool.cfg.chkSz, s.sys.ctl.iods[i], s.sys.rs[i].regions, s.ios[i], a.k);
  }

  /** All transfers of descriptor i were carried out. */
  ghost predicate WrittenOut(s: R.Sys, w: World, did: seq<Op>, was: World, i: nat)
    requires i < |s.rs| && i < |s.ctl.iods|
  {
    forall x {:trigger Look(x)} :: Look(x) ==>
      Carries(s.pool.cfg.chkSz, w, s.ctl.iods[i].kind, s.rs[i].regions, did, was)
  }

  lemma OpenWritten(s: R.Sys, w: World, did: seq<Op>, was: World, i: nat)
    requires i < |s.rs| && i < |s.ctl.iods| && WrittenOut(s, w, did, was, i)
    ensures Carries(s.pool.cfg.chkSz, w, s.ctl.iods[i].kind, s.rs[i].regions, did, was)
  {
    assert Look(0);
  }

  lemma CloseWritten(s: R.Sys, w: World, did: seq<Op>, was: World, i: nat)
    requires i < |s.rs| && i < |s.ctl.iods|
             && Carries(s.pool.cfg.chkSz, w, s.ctl.iods[i].kind, s.rs[i].regions, did, was)
    ensures WrittenOut(s, w, did, was, i)
  {
  }

  lemma CtlSynced(s: All, m: R.Move, i: nat)
    requires AllInv(s) && Gives(s, Ctl(m), i)
    ensures WrittenOut(s.sys, s.w, s.ios[i].did, s.ios[i].was, i)
  {
    AllFacts(s, i);
    CtlGives(s, m, i);
    CloseWritten(s.sys, s.w, s.ios[i].did, s.ios[i].was, i);
  }

  lemma ArriveSynced(s: All, a: Act, i: nat)
    requires AllInv(s) && Gives(s, a, i) && a.Arrive?
    ensures a.i == i && WrittenOut(s.sys, Step(s, a).w, Carried(s, a, i), s.ios[i].was, i)
  {
    AllFacts(s, i);
    ArriveGives(s, a, i);
    OwnData(s, i, s.ios[i].sent[a.k]);
    CloseWritten(s.sys, Do(Writes(s, i), s.w, s.ios[i].sent[a.k]), Carried(s, a, i), s.ios[i].was, i);
  }

  /** Nothing else gives a buffer back. */
  lemma WhoGives(s: All, a: Act, i: nat)
    requires AllInv(s) && Gives(s, a, i)
    ensures a.Ctl? || a.Arrive?
  {
    if a.Send? && a.i != i {
      MovedOthers(s.sys, R.Other(P.IssueOne(a.i, false)), i);
    }
  }

  lemma GivesSynced(s: All, a: Act, i: nat) returns (w: World, did: seq<Op>)
    requires AllInv(s) && Gives(s, a, i)
    ensures w == Step(s, a).w && WrittenOut(s.sys, w, did, s.ios[i].was, i) && s.sys.ctl.iods[i].prep
  {
    HeldFacts(s.sys, i);
    WhoGives(s, a, i);
    w := Step(s, a).w;
    if a.Ctl? {
      CtlSynced(s, a.m, i);
      did := s.ios[i].did;
    } else {
      ArriveSynced(s, a, i);
      did := Carried(s, a, i);
    }
  }

  /** The media after all writes of a prepared update. */
  lemma UpdateExtent(s: R.Sys, w: World, did: seq<Op>, was: World, i: nat, k: nat, x: nat)
    requires Sound(s) && |s.rs| == |s.items| == |s.places| == |s.ctl.iods| && i < |s.rs|
    requires s.ctl.iods[i].prep && s.ctl.iods[i].kind.iod.Update?
    requires WrittenOut(s, w, did, was, i)
    requires k < |s.items[i]| == |s.places[i]| && NoOverlap(s.items[i]) && s.places[i][k].buf.Dma?
             && x < s.items[i][k].ext.len
    ensures var e := s.items[i][k].ext;
            w.Dev(e.media, e.off + x) == Get(was, s.places[i][k].buf, x)
  {
    OpenWritten(s, w, did, was, i);
    HeldFacts(s, i);
    PreparedAt(s, i);
    PlaceAt(s.pool, s.rs, i, s.items[i], s.places[i], k);
    UpdateFacts(s.pool, s.rs, i, s.items[i], s.places[i]);
    ExtentSynced(s.pool.cfg.chkSz, w, s.ctl.iods[i].kind, s.rs[i].regions, did, was,
                 s.places[i][k].rg, s.items[i][k].ext, s.places[i][k].buf, x);
  }

  lemma UpdateAt(t: All, a: Act, i: nat, k: nat, x: nat)
    requires AllInv(t) && Gives(t, a, i) && k < |t.sys.items[i]| == |t.sys.places[i]| && NoOverlap(t.sys.items[i])
    requires t.sys.places[i][k].buf.Dma? && x < t.sys.items[i][k].ext.len
    ensures var e := t.sys.items[i][k].ext;
            Step(t, a).w.Dev(e.media, e.off + x) == Get(t.ios[i].was, t.sys.places[i][k].buf, x)
  {
    var w, did := GivesSynced(t, a, i);
    UpdateExtent(t.sys, w, did, t.ios[i].was, i, k, x);
  }

  /** Update: whatever all descriptors did before, when a posted update descriptor gives its buffer back without an
      error, every extent on its medium holds the bytes that its buffer held when the writes began. */
  lemma UpdateInRun(s: All, acts: seq<Act>, t: All, a: Act, i: nat, k: nat, x: nat)
    requires Init(s) && t == After(s, acts) && Gives(t, a, i)
    requires k < |t.sys.items[i]| == |t.sys.places[i]| && NoOverlap(t.sys.items[i])
    requires t.sys.places[i][k].buf.Dma? && x < t.sys.items[i][k].ext.len
    ensures var e := t.sys.items[i][k].ext;
            Step(t, a).w.Dev(e.media, e.off + x) == Get(t.ios[i].was, t.sys.places[i][k].buf, x)
  {
    RunInv(s, acts);
    UpdateAt(t, a, i, k, x);
  }

  // ---------------------------------------------------------------------------------------------
  // What transfers cannot reach
  // ---------------------------------------------------------------------------------------------

  /** Byte x of chunk c belongs to a region of a prepared descriptor. */
  ghost predicate MemHeld(s: R.Sys, c: ChunkId, x: nat)
    requires |s.rs| == |s.ctl.iods|
  {
    exists i, g :: 0 <= i < |s.rs| && 0 <= g < |s.rs[i].regions| && s.ctl.iods[i].prep
      && InMem(s.rs[i].regions[g], c, x)
  }

  /** Byte a of medium m belongs to a region of a posted update. */
  ghost predicate DevHeld(s: R.Sys, m: Media, a: nat)
    requires |s.rs| == |s.ctl.iods|
  {
    exists i, g :: 0 <= i < |s.rs| && 0 <= g < |s.rs[i].regions| && s.ctl.iods[i].kind.iod.Update?
      && s.ctl.iods[i].posted
                   && InDev(s.rs[i].regions[g], m, a)
  }

  lemma TransferReach(s: All, i: nat, op: Op, after: World, c: ChunkId, x: nat, m: Media, a: nat)
    requires AllInv(s) && i < |s.ios| && Within(s.ios[i], op) && Scribbles(Writes(s, i), s.w, after, op)
    ensures after.dma(c, x) != s.w.dma(c, x) ==> MemHeld(s.sys, c, x)
    ensures after.Dev(m, a) != s.w.Dev(m, a) ==> DevHeld(s.sys, m, a)
  {
    AllFacts(s, i);
    var g := OwnerOf(s.sys.pool.cfg.chkSz, s.sys.rs[i].regions, op);
    if after.dma(c, x) != s.w.dma(c, x) {
      assert InMem(s.sys.rs[i].regions[g], c, x);
    }
    if after.Dev(m, a) != s.w.Dev(m, a) {
      assert InDev(s.sys.rs[i].regions[g], m, a);
    }
  }

  /** No step of a run changes DMA memory that no prepared descriptor holds, and none but the caller's own changes a
      byte of a medium outside the regions of the posted updates. */
  lemma NoWildTransfer(s: All, acts: seq<Act>, t: All, act: Act, c: ChunkId, x: nat, m: Media, a: nat)
    requires Init(s) && t == After(s, acts) && Enabled(t, act)
    ensures Step(t, act).w.dma(c, x) != t.w.dma(c, x) ==> MemHeld(t.sys, c, x)
    ensures Step(t, act).w.Dev(m, a) != t.w.Dev(m, a) ==> act.Fill? || DevHeld(t.sys, m, a)
  {
    RunInv(s, acts);
    var w := Step(t, act).w;
    match act
    case Ctl(mv) =>
    case Copy(i) =>
      DoScribbles(Writes(t, i), t.w, t.ios[i].todo[0]);
      TransferReach(t, i, t.ios[i].todo[0], w, c, x, m, a);
    case Send(i) =>
    case Drift(i, k, after) => TransferReach(t, i, t.ios[i].sent[k], w, c, x, m, a);
    case Arrive(i, k, err, after) =>
      DoScribbles(Writes(t, i), t.w, t.ios[i].sent[k]);
      TransferReach(t, i, t.ios[i].sent[k], w, c, x, m, a);
    case Fill(i, after) =>
      if after.dma(c, x) != t.w.dma(c, x) {
        var g :| 0 <= g < |t.sys.rs[i].regions| && InMem(t.sys.rs[i].regions[g], c, x);
        assert MemHeld(t.sys, c, x);
      }
  }
}
