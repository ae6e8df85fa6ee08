/** The whole system: any number of descriptors on one DMA buffer, each going through preparation, retries, transfers
    and post, in any interleaving.  Every step is a step of the protocol together with what it does to the buffer. */
module Runs {
  import opened BioTypes
  import opened SeqLib
  import opened Folding
  import opened Pool
  import opened PoolInv
  import opened ReserveProofs
  import opened MapRun
  import opened Mapping
  import opened ReleaseRun
  import opened ReleaseProofs
  import opened HandleProofs
  import P = Protocol
  import I = ProtocolInv

  /** `rs[i]` is what descriptor i holds, `items[i]` and `places[i]` the extents it has mapped and where. */
  datatype Sys = Sys(ctl: P.Ctl, pool: Pool, rs: seq<Rsrvd>, items: seq<seq<Item>>, places: seq<seq<Place>>)

  /** One step: a preparation with its first attempt to map, another attempt after a wait, or another protocol step. */
  datatype Move =
    | Prep(i: nat, kind: Kind, nonBlocking: bool, copyDst: bool, its: seq<Item>, evOk: bool)
    | Retry(i: nat, its: seq<Item>, evOk: bool)
    | Other(l: P.Label)

  /** The chunk types and modes that callers may ask for: cached bulk handles need RDMA and I/O chunks. */
  predicate KindFits(k: Kind) {
    k.bulk ==> k.rdma && k.ctype == Io
  }

  predicate ItemsOk(its: seq<Item>) {
    forall k :: 0 <= k < |its| ==> ItemOk(its[k])
  }

  function OutcomeOf(r: MapAllRes, evOk: bool): P.Outcome {
    if r.rc == Ok then P.Mapped(r.d.regions != [], evOk) else P.Failed(r.rc == Rc.Again)
  }

  predicate Enabled(s: Sys, m: Move) {
    match m
    case Prep(i, kind, nb, dst, its, evOk) =>
      P.Enabled(s.ctl, P.Prep(i, kind, nb, dst, P.Failed(false))) && KindFits(kind) && ItemsOk(its)
    case Retry(i, its, evOk) => P.Enabled(s.ctl, P.Label.Again(i, P.Failed(false))) && ItemsOk(its)
    case Other(l) => !l.Prep? && !l.Again? && P.Enabled(s.ctl, l)
  }

  /** One attempt to map all extents of descriptor i, and what follows in the same step. */
  function Attempt(s: Sys, i: nat, its: seq<Item>, evOk: bool): Sys
    requires i < |s.ctl.iods| && i < |s.rs| && i < |s.items| && i < |s.places|
  {
    var k := s.ctl.iods[i].kind;
    var r := MapAll(s.pool, Empty(k), its);
    var c := P.Tried(s.ctl, i, OutcomeOf(r, evOk));
    if c.iods[i].prep then
      Sys(c, r.pool, s.rs[i := r.d], s.items[i := its], s.places[i := r.places])
    else
      Sys(c, Release(r.pool, r.d), s.rs[i := Empty(k)], s.items, s.places)
  }

  /** A preparation before its first attempt to map. */
  function Started(s: Sys, m: Move): Sys
    requires m.Prep? && m.i < |s.ctl.iods| && m.i < |s.rs|
  {
    s.(ctl := P.Start(s.ctl, m.i, m.kind, m.nonBlocking, m.copyDst), rs := s.rs[m.i := Empty(m.kind)])
  }

  function Step(s: Sys, m: Move): Sys
    requires |s.rs| == |s.items| == |s.places| == |s.ctl.iods| && Enabled(s, m)
  {
    match m
    case Prep(i, kind, nb, dst, its, evOk) =>
      var t := Started(s, m);
      if t.ctl.iods[i].pc == P.FifoWait then t else Attempt(t, i, its, evOk)
    case Retry(i, its, evOk) => Attempt(s, i, its, evOk)
    case Other(l) =>
      var c := P.Step(s.ctl, l);
      if s.ctl.iods[l.i].prep && !c.iods[l.i].prep then
        s.(ctl := c, pool := Release(s.pool, s.rs[l.i]), rs := s.rs[l.i := Empty(s.rs[l.i].kind)])
      else s.(ctl := c)
  }

  /** The protocol step that a move is. */
  function LabelOf(s: Sys, m: Move): P.Label
    requires |s.rs| == |s.items| == |s.places| == |s.ctl.iods| && Enabled(s, m)
  {
    match m
    case Prep(i, kind, nb, dst, its, evOk) =>
      P.Prep(i, kind, nb, dst, OutcomeOf(MapAll(s.pool, Empty(kind), its), evOk))
    case Retry(i, its, evOk) => P.Label.Again(i, OutcomeOf(MapAll(s.pool, Empty(s.ctl.iods[i].kind), its), evOk))
    case Other(l) => l
  }

  // ---------------------------------------------------------------------------------------------
  // The invariant
  // ---------------------------------------------------------------------------------------------

  /** Descriptor i holds memory exactly if it is prepared, and is active exactly if some of it is DMA memory. */
  ghost predicate Link(s: Sys, i: nat)
    requires i < |s.ctl.iods| == |s.rs| == |s.items| == |s.places|
  {
    var d := s.ctl.iods[i];
    && s.rs[i].kind == d.kind
    && (!d.prep ==> s.rs[i] == Empty(d.kind))
    && (d.prep ==> Complete(s.pool.cfg, s.rs[i], s.items[i], s.places[i]) && (d.act <==> s.rs[i].regions != []))
    && Backed(s.rs[i])
  }

  ghost predicate SysInv(s: Sys) {
    && |s.rs| == |s.items| == |s.places| == |s.ctl.iods|
    && I.CtlInv(s.ctl) && Inv(s.pool, s.rs)
    && forall i :: 0 <= i < |s.rs| ==> Link(s, i)
  }

  /** A descriptor that holds nothing may change its kind. */
  lemma RekindInv(p: Pool, rs: seq<Rsrvd>, i: nat, k: Kind)
    requires Inv(p, rs) && i < |rs| && rs[i] == Empty(rs[i].kind) && KindFits(k)
    ensures Inv(p, rs[i := Empty(k)])
  {
    Open(p, rs);
    var d := Empty(k);
    var rt := rs[i := d];
    forall c | c in p.heap ensures p.heap[c].refs == Occ(rt, c) {
      OccUpdate(rs, i, d, c);
    }
    forall h ensures Hd(p, h).inuse == HOcc(rt, h) {
      HOccUpdate(rs, i, d, h);
    }
    assert KindOk(d);
    forall a, x | 0 <= a < |rt| && 0 <= x < |rt[a].regions| ensures RegionOk(p, rt[a], rt[a].regions[x]) {
      assert RegionOk(p, rs[a], rs[a].regions[x]);
    }
    Close(p, rt);
  }

  lemma {:induction false} UnholdAllCfg(p: Pool, hs: seq<Option<HdlRef>>)
    ensures UnholdAll(p, hs).cfg == p.cfg
    decreases |hs|
  {
    if hs != [] {
      UnholdAllCfg(if hs[0].Some? then Unhold(p, hs[0].value) else p, hs[1..]);
    }
  }

  lemma {:induction false} DropRefsCfg(p: Pool, cs: seq<ChunkId>)
    ensures DropRefs(p, cs).cfg == p.cfg
    decreases |cs|
  {
    if cs != [] {
      DropRefsCfg(DropRef(p, cs[0]), cs[1..]);
    }
  }

  lemma ReleaseCfg(p: Pool, d: Rsrvd)
    ensures Release(p, d).cfg == p.cfg
  {
    UnholdAllCfg(p, d.hdls);
    DropRefsCfg(UnholdAll(p, d.hdls), d.chks);
  }

  // ---------------------------------------------------------------------------------------------
  // What the protocol steps say about the descriptor itself
  // ---------------------------------------------------------------------------------------------

  /** After an attempt: prepared exactly if the mapping succeeded (and the eventual was created), and then active
      exactly if there are regions. */
  lemma TriedResult(c: P.Ctl, i: nat, out: P.Outcome)
    requires i < |c.iods| && !c.iods[i].prep && !c.iods[i].act
    ensures var d := P.Tried(c, i, out).iods[i];
            && d.kind == c.iods[i].kind
            && (d.prep ==> out.Mapped? && (d.act <==> out.regions))
            && (!d.prep ==> !d.act)
  {
    match out
    case Mapped(regions, evOk) =>
      var d0 := c.iods[i].(prep := true, pc := P.Outside, waits := 0);
      var c1 := P.FifoOut(P.Set(c, i, d0), i);
      I.OutSelf(c, i, d0);
      var d1 := c1.iods[i];
      var c2 := P.Join(c1, i);
      assert c2.iods[i].act && c2.iods[i].prep && c2.iods[i].kind == d1.kind;
      assert P.Set(c2, i, c2.iods[i]) == c2;
      I.DropSelf(c2, i, c2.iods[i]);
    case Failed(retry) =>
      I.OutSelf(c, i, c.iods[i].(pc := P.Outside, waits := 0));
  }

  /** Descriptor e is as prepared and active as d was, or it has given everything back. */
  predicate Keeps(d: P.Iod, e: P.Iod) {
    e.kind == d.kind && (e.prep ==> d.prep && e.act == d.act)
  }

  lemma PostResult(c: P.Ctl, i: nat, err: bool, async: bool)
    requires i < |c.iods|
    ensures Keeps(c.iods[i], P.Post(c, i, err, async).iods[i])
  {
    I.DropSelf(c, i, c.iods[i].(inflights := 0, failed := err, posted := true));
  }

  lemma EndResult(c: P.Ctl, i: nat)
    requires i < |c.iods|
    ensures Keeps(c.iods[i], P.EndIssue(c, i).iods[i])
  {
    I.DropSelf(c, i, P.Unbiased(c.iods[i], P.Outside));
  }

  lemma ResumeResult(c: P.Ctl, i: nat)
    requires i < |c.iods|
    ensures Keeps(c.iods[i], P.AfterDma(c, i).iods[i])
  {
    I.DropSelf(c, i, c.iods[i].(pc := P.Outside));
  }

  lemma DoneResult(c: P.Ctl, i: nat, err: bool)
    requires i < |c.iods|
    ensures Keeps(c.iods[i], P.Complete(c, i, err).iods[i])
  {
    I.DropSelf(c, i, P.Completed(c.iods[i], err));
  }

  lemma OtherResult(c: P.Ctl, l: P.Label)
    requires P.Enabled(c, l) && !l.Prep? && !l.Again?
    ensures Keeps(c.iods[l.i], P.Step(c, l).iods[l.i])
  {
    match l
    case PostIod(i, err, async) => PostResult(c, i, err, async);
    case IssueOne(i, bad) =>
    case EndRw(i) => EndResult(c, i);
    case Resume(i) => ResumeResult(c, i);
    case Done(i, err) => DoneResult(c, i, err);
  }

  // ---------------------------------------------------------------------------------------------
  // Steps
  // ---------------------------------------------------------------------------------------------

  /** The link of descriptor k when a step of another descriptor left it alone. */
  lemma LinkKept(s: Sys, t: Sys, k: nat)
    requires |s.rs| == |s.items| == |s.places| == |s.ctl.iods|
             && |t.rs| == |t.items| == |t.places| == |t.ctl.iods| == |s.rs|
    requires k < |s.rs| && Link(s, k) && I.Alike(s.ctl.iods[k], t.ctl.iods[k]) && t.pool.cfg == s.pool.cfg
    requires t.rs[k] == s.rs[k] && t.items[k] == s.items[k] && t.places[k] == s.places[k]
    ensures Link(t, k)
  {
  }

  /** Everything but the link of descriptor i. */
  ghost predicate Ready(s: Sys, i: nat) {
    && |s.rs| == |s.items| == |s.places| == |s.ctl.iods| && i < |s.rs|
    && I.CtlInv(s.ctl) && I.MayMap(s.ctl, i) && Inv(s.pool, s.rs) && s.rs[i] == Empty(s.ctl.iods[i].kind)
    && !s.ctl.iods[i].act
    && forall k :: 0 <= k < |s.rs| && k != i ==> Link(s, k)
  }

  /** What an attempt does to the buffer. */
  lemma AttemptPool(s: Sys, i: nat, its: seq<Item>, evOk: bool)
    requires Ready(s, i) && ItemsOk(its)
    ensures var t := Attempt(s, i, its, evOk);
            Inv(t.pool, t.rs) && t.pool.cfg == s.pool.cfg && Link(t, i)
  {
    var k := s.ctl.iods[i].kind;
    var r := MapAll(s.pool, Empty(k), its);
    MapAllInv(s.pool, s.rs, i, its);
    TriedResult(s.ctl, i, OutcomeOf(r, evOk));
    var rt := s.rs[i := r.d];
    ReleaseInv(r.pool, rt, i);
    assert rt[i := Empty(rt[i].kind)] == s.rs[i := Empty(k)];
    ReleaseCfg(r.pool, r.d);
  }

  lemma AttemptInv(s: Sys, i: nat, its: seq<Item>, evOk: bool)
    requires Ready(s, i) && ItemsOk(its)
    ensures SysInv(Attempt(s, i, its, evOk))
  {
    var t := Attempt(s, i, its, evOk);
    var out := OutcomeOf(MapAll(s.pool, Empty(s.ctl.iods[i].kind), its), evOk);
    AttemptPool(s, i, its, evOk);
    I.TriedInv(s.ctl, i, out);
    forall k | 0 <= k < |t.rs| ensures Link(t, k) {
      if k != i {
        I.TriedOthers(s.ctl, i, out, k);
        LinkKept(s, t, k);
      }
    }
  }

  lemma StartedRest(s: Sys, m: Move)
    requires SysInv(s) && m.Prep? && Enabled(s, m)
    ensures var t := Started(s, m);
            && Inv(t.pool, t.rs) && !s.ctl.iods[m.i].act
            && forall k :: 0 <= k < |t.rs| && k != m.i ==> Link(t, k)
  {
    var t := Started(s, m);
    assert Link(s, m.i);
    I.IodAt(s.ctl, m.i);
    RekindInv(s.pool, s.rs, m.i, m.kind);
    forall k | 0 <= k < |s.rs| && k != m.i ensures Link(t, k) {
      assert Link(s, k);
      LinkKept(s, t, k);
    }
  }

  lemma PrepInv(s: Sys, m: Move)
    requires SysInv(s) && m.Prep? && Enabled(s, m)
    ensures SysInv(Step(s, m))
  {
    if s.ctl.queued == 0 || m.nonBlocking {
      StartedReady(s, m);
      AttemptInv(Started(s, m), m.i, m.its, m.evOk);
    } else {
      StartedRest(s, m);
      I.IodAt(s.ctl, m.i);
      I.QueueInv(s.ctl, m.i, m.kind, m.copyDst);
      assert Link(Started(s, m), m.i);
    }
  }

  lemma RetryInv(s: Sys, m: Move)
    requires SysInv(s) && m.Retry? && Enabled(s, m)
    ensures SysInv(Step(s, m))
  {
    RetryReady(s, m);
    AttemptInv(s, m.i, m.its, m.evOk);
  }

  lemma OtherInv(s: Sys, l: P.Label)
    requires SysInv(s) && Enabled(s, Other(l))
    ensures SysInv(Step(s, Other(l)))
  {
    var t := Step(s, Other(l));
    I.StepInv(s.ctl, l);
    OtherResult(s.ctl, l);
    I.IodAt(t.ctl, l.i);
    assert Link(s, l.i);
    if s.ctl.iods[l.i].prep && !t.ctl.iods[l.i].prep {
      ReleaseInv(s.pool, s.rs, l.i);
      ReleaseCfg(s.pool, s.rs[l.i]);
    }
    forall k | 0 <= k < |t.rs| ensures Link(t, k) {
      if k != l.i {
        I.OthersKept(s.ctl, l, k);
        assert Link(s, k);
        LinkKept(s, t, k);
      }
    }
  }

  /** Every step of any descriptor keeps the invariant of the whole system. */
  lemma StepInv(s: Sys, m: Move)
    requires SysInv(s) && Enabled(s, m)
    ensures SysInv(Step(s, m))
  {
    match m
    case Prep(_, _, _, _, _, _) => PrepInv(s, m);
    case Retry(_, _, _) => RetryInv(s, m);
    case Other(l) => OtherInv(s, l);
  }

  // ---------------------------------------------------------------------------------------------
  // Runs
  // ---------------------------------------------------------------------------------------------

  lemma {:induction false} NewBufferInv(cfg: Config, n: nat, rs: seq<Rsrvd>)
    requires cfg.Valid() && n <= cfg.chkMax
    requires forall i :: 0 <= i < |rs| ==> rs[i] == Empty(rs[i].kind) && KindFits(rs[i].kind)
    ensures Inv(GrowN(NewPool(cfg), n), rs) && GrowN(NewPool(cfg), n).cfg == cfg && GrowN(NewPool(cfg), n).tot == n
  {
    if n == 0 {
      NoBuffers(cfg, rs);
    } else {
      NewBufferInv(cfg, n - 1, rs);
      GrowCore(GrowN(NewPool(cfg), n - 1), rs);
    }
  }

  lemma NoBuffers(cfg: Config, rs: seq<Rsrvd>)
    requires cfg.Valid()
    requires forall i :: 0 <= i < |rs| ==> rs[i] == Empty(rs[i].kind) && KindFits(rs[i].kind)
    ensures Inv(NewPool(cfg), rs)
  {
    var p := NewPool(cfg);
    forall t ensures CntOf(p.usedCnt, t) == |UsedOf(p, t)| {
      assert UsedOf(p, t) == {};
    }
    forall h ensures HOcc(rs, h) == 0 {
      HOccNone(rs, h);
    }
    forall c ensures Chk(p, c).bulkIdle == |IdleIdx(p, c)| {
      assert IdleIdx(p, c) == {};
    }
    forall i | 0 <= i < |rs| ensures KindOk(rs[i]) {
    }
    Close(p, rs);
  }

  /** At the start every descriptor is idle and the buffer is new. */
  ghost predicate Init(s: Sys) {
    && |s.rs| == |s.items| == |s.places| == |s.ctl.iods|
    && I.Init(s.ctl)
    && (forall i :: 0 <= i < |s.rs| ==> s.rs[i] == Empty(s.ctl.iods[i].kind) && KindFits(s.rs[i].kind))
    && s.pool.cfg.Valid()
    && exists n :: 0 <= n <= s.pool.cfg.chkMax && s.pool == GrowN(NewPool(s.pool.cfg), n)
  }

  ghost predicate Sized(s: Sys) {
    |s.rs| == |s.items| == |s.places| == |s.ctl.iods|
  }

  /** The state after a run; a move that cannot be made is skipped. */
  ghost function After(s: Sys, ms: seq<Move>): Sys {
    if ms == [] then s
    else
      var t := After(s, ms[..|ms| - 1]);
      if Sized(t) && Enabled(t, ms[|ms| - 1]) then Step(t, ms[|ms| - 1]) else t
  }

  /** The invariant holds in every state that any interleaving of any descriptors can reach. */
  lemma {:induction false} RunInv(s: Sys, ms: seq<Move>)
    requires Init(s)
    ensures SysInv(After(s, ms))
    decreases |ms|
  {
    if ms == [] {
      I.RunInv(s.ctl, []);
      var n :| 0 <= n <= s.pool.cfg.chkMax && s.pool == GrowN(NewPool(s.pool.cfg), n);
      NewBufferInv(s.pool.cfg, n, s.rs);
    } else {
      RunInv(s, ms[..|ms| - 1]);
      var t := After(s, ms[..|ms| - 1]);
      if Enabled(t, ms[|ms| - 1]) {
        StepInv(t, ms[|ms| - 1]);
      }
    }
  }

  // ---------------------------------------------------------------------------------------------
  // What a step leaves alone
  // ---------------------------------------------------------------------------------------------

  /** The descriptor that makes the move. */
  function Who(m: Move): nat {
    match m
    case Prep(i, _, _, _, _, _) => i
    case Retry(i, _, _) => i
    case Other(l) => l.i
  }

  /** Descriptor k holds what it held and is where it was, or is still queued. */
  ghost predicate Untouched(s: Sys, t: Sys, k: nat) {
    && k < |s.rs| == |t.rs| && k < |s.items| == |t.items| && k < |s.places| == |t.places|
    && t.rs[k] == s.rs[k] && t.items[k] == s.items[k] && t.places[k] == s.places[k] && I.OnlyPc(s.ctl, t.ctl, k)
  }

  lemma AttemptOthers(s: Sys, i: nat, its: seq<Item>, evOk: bool, k: nat)
    requires |s.rs| == |s.items| == |s.places| == |s.ctl.iods| && i < |s.rs| && k < |s.rs| && k != i
    ensures Untouched(s, Attempt(s, i, its, evOk), k)
  {
    I.TriedOthers(s.ctl, i, OutcomeOf(MapAll(s.pool, Empty(s.ctl.iods[i].kind), its), evOk), k);
  }

  lemma StartedOthers(s: Sys, m: Move, k: nat)
    requires |s.rs| == |s.items| == |s.places| == |s.ctl.iods| && m.Prep? && m.i < |s.rs| && k < |s.rs| && k != m.i
    ensures Untouched(s, Started(s, m), k)
  {
  }

  lemma StepOthers(s: Sys, m: Move, k: nat)
    requires SysInv(s) && Enabled(s, m) && k < |s.rs| && k != Who(m)
    ensures Untouched(s, Step(s, m), k)
  {
    match m
    case Prep(i, kind, nb, dst, its, evOk) =>
      StartedOthers(s, m, k);
      AttemptOthers(Started(s, m), i, its, evOk, k);
    case Retry(i, its, evOk) => AttemptOthers(s, i, its, evOk, k);
    case Other(l) => I.OthersKept(s.ctl, l, k);
  }

  /** A preparation that does not queue is ready for its attempt. */
  lemma StartedReady(s: Sys, m: Move)
    requires SysInv(s) && m.Prep? && Enabled(s, m) && (s.ctl.queued == 0 || m.nonBlocking)
    ensures Ready(Started(s, m), m.i)
  {
    StartedRest(s, m);
    I.IodAt(s.ctl, m.i);
    I.SetInv(s.ctl, m.i, s.ctl.iods[m.i].(kind := m.kind, nonBlocking := m.nonBlocking, copyDst := m.copyDst));
  }

  lemma RetryReady(s: Sys, m: Move)
    requires SysInv(s) && m.Retry? && Enabled(s, m)
    ensures Ready(s, m.i)
  {
    I.IodAt(s.ctl, m.i);
    assert Link(s, m.i);
  }

  lemma StepCfg(s: Sys, m: Move)
    requires SysInv(s) && Enabled(s, m)
    ensures Step(s, m).pool.cfg == s.pool.cfg
  {
    match m
    case Prep(i, kind, nb, dst, its, evOk) =>
      if s.ctl.queued == 0 || nb {
        StartedReady(s, m);
        AttemptPool(Started(s, m), i, its, evOk);
      }
    case Retry(i, its, evOk) =>
      RetryReady(s, m);
      AttemptPool(s, i, its, evOk);
    case Other(l) => ReleaseCfg(s.pool, s.rs[l.i]);
  }
}
