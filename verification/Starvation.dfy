/** What it means that a descriptor finds no memory although no other is active, and when the assertion that
    `iod_should_retry` makes about copy destinations holds. */
module Starvation {
  import opened BioTypes
  import opened SeqLib
  import opened Pool
  import opened PoolInv
  import opened MapRun
  import opened Packing
  import P = Protocol
  import I = ProtocolInv
  import R = Runs

  // ---------------------------------------------------------------------------------------------
  // Nobody is active
  // ---------------------------------------------------------------------------------------------

  /** A descriptor that is not active holds neither chunks nor handles. */
  lemma InactiveHolds(s: R.Sys, i: nat)
    requires R.SysInv(s) && i < |s.rs| && !s.ctl.iods[i].act
    ensures s.rs[i].chks == [] && forall h :: Some(h) !in s.rs[i].hdls
  {
    assert R.Link(s, i);
    var d := s.rs[i];
    if s.ctl.iods[i].prep {
      assert d.regions == [];
      if d.kind.bulk {
        forall k | 0 <= k < |d.hdls| ensures d.hdls[k].None? {
          assert HandleFor(s.pool.cfg, d, s.items[i][k], s.places[i][k], d.hdls[k]);
        }
      } else {
        Open(s.pool, s.rs);
        assert KindOk(d);
      }
    }
  }

  /** When no descriptor is active, no chunk is used and no handle is held. */
  lemma NobodyActive(s: R.Sys)
    requires R.SysInv(s) && s.ctl.active == 0
    ensures s.pool.used == [] && NoneHeld(s.pool)
  {
    forall i | 0 <= i < |s.rs| ensures s.rs[i].chks == [] && forall h :: Some(h) !in s.rs[i].hdls {
      I.ActiveNat(s.ctl, i);
      InactiveHolds(s, i);
    }
    NothingHeld(s.pool, s.rs);
  }

  lemma NothingHeld(p: Pool, rs: seq<Rsrvd>)
    requires Inv(p, rs) && forall i :: 0 <= i < |rs| ==> rs[i].chks == [] && forall h :: Some(h) !in rs[i].hdls
    ensures p.used == [] && NoneHeld(p)
  {
    Open(p, rs);
    forall h ensures HdlIn(p.hdls, h).inuse == 0 {
      HOccNone(rs, h);
      assert Hd(p, h).inuse == 0;
    }
    forall c | c in p.used ensures false {
      assert ChunkOk(p, p.heap[c]);
      OccNone(rs, c);
    }
    if p.used != [] {
      SomeMember(p.used);
    }
  }

  // ---------------------------------------------------------------------------------------------
  // Attempts
  // ---------------------------------------------------------------------------------------------

  /** The move tries to map its extents at once. */
  predicate Tries(s: R.Sys, m: R.Move) {
    (m.Prep? && (s.ctl.queued == 0 || m.nonBlocking)) || m.Retry?
  }

  function KindOf(s: R.Sys, m: R.Move): Kind
    requires !m.Other? && m.i < |s.ctl.iods|
  {
    if m.Prep? then m.kind else s.ctl.iods[m.i].kind
  }

  /** The attempt runs short of chunks, and `iod_should_retry` is asked. */
  predicate Short(s: R.Sys, m: R.Move)
    requires !m.Other? && m.i < |s.ctl.iods|
  {
    MapAll(s.pool, Empty(KindOf(s, m)), m.its).rc == Again
  }

  lemma AttemptPacks(s: R.Sys, i: nat, its: seq<Item>)
    requires R.Ready(s, i) && R.ItemsOk(its) && s.pool.used == [] && NoneHeld(s.pool) && !s.ctl.iods[i].kind.bulk
    ensures var k := s.ctl.iods[i].kind;
            var rc := MapAll(s.pool, Empty(k), its).rc;
            && (Granted(its) ==> (rc == Again <==> Needed(s.pool.cfg, k, its) > s.pool.cfg.chkMax)
                                 && (rc == Again || rc == Ok))
            && (rc == Again ==> Needed(s.pool.cfg, k, its) > s.pool.tot)
  {
    MappingIsPacking(s.pool, s.rs, i, its);
    OpenEnds(s.pool, MapAll(s.pool, s.rs[i], its), PackAll(s.pool.cfg, s.rs[i].kind, its), Granted(its));
  }

  lemma ShortExact(s: R.Sys, m: R.Move)
    requires R.SysInv(s) && R.Enabled(s, m) && Tries(s, m) && s.ctl.active == 0 && !KindOf(s, m).bulk
    ensures var need := Needed(s.pool.cfg, KindOf(s, m), m.its);
            && (Granted(m.its) ==> (Short(s, m) <==> need > s.pool.cfg.chkMax))
            && (Short(s, m) ==> need > s.pool.tot)
  {
    NobodyActive(s);
    if m.Prep? {
      R.StartedReady(s, m);
      AttemptPacks(R.Started(s, m), m.i, m.its);
    } else {
      R.RetryReady(s, m);
      AttemptPacks(s, m.i, m.its);
    }
  }

  /** The comment in `iod_should_retry`: in every reachable state in which no descriptor is active, a list outside the
      bulk cache runs short of chunks exactly if it needs more chunks than the whole buffer may have, provided that
      memory is granted; in any case only if it needs more than the buffer has, and if it has more pages than half of
      the buffer may have. */
  lemma ShortMeansTooLarge(s: R.Sys, ms: seq<R.Move>, t: R.Sys, m: R.Move)
    requires R.Init(s) && t == R.After(s, ms) && R.Enabled(t, m) && Tries(t, m) && t.ctl.active == 0
             && !KindOf(t, m).bulk
    ensures var cfg := t.pool.cfg;
            var k := KindOf(t, m);
            && (Granted(m.its) ==> (Short(t, m) <==> Needed(cfg, k, m.its) > cfg.chkMax))
            && (Short(t, m) ==> Needed(cfg, k, m.its) > t.pool.tot)
            && (Granted(m.its) && Short(t, m) ==> cfg.chkMax * cfg.chkSz < 2 * Pages(cfg, k, m.its))
  {
    R.RunInv(s, ms);
    ShortExact(t, m);
    if Needed(t.pool.cfg, KindOf(t, m), m.its) > t.pool.cfg.chkMax {
      NeededBound(t.pool.cfg, KindOf(t, m), m.its);
    }
  }

  // ---------------------------------------------------------------------------------------------
  // The assertion on copy destinations
  // ---------------------------------------------------------------------------------------------

  /** The move is made by the destination of a copy. */
  predicate ForCopy(s: R.Sys, m: R.Move)
    requires !m.Other? && m.i < |s.ctl.iods|
  {
    if m.Prep? then m.copyDst else s.ctl.iods[m.i].copyDst
  }

  /** The assertions that a move runs into. */
  predicate Asserts(s: R.Sys, m: R.Move)
    requires R.Sized(s) && R.Enabled(s, m)
  {
    I.Asserts(s.ctl, R.LabelOf(s, m))
  }

  /** A destination of a copy tries to map while no descriptor, not even its source, is active. */
  predicate Alone(s: R.Sys, m: R.Move)
    requires R.Enabled(s, m)
  {
    !m.Other? && Tries(s, m) && ForCopy(s, m) && s.ctl.active == 0
  }

  lemma AssertsShort(s: R.Sys, m: R.Move)
    requires R.SysInv(s) && R.Enabled(s, m)
    ensures Asserts(s, m) <==> !(Alone(s, m) && Short(s, m))
  {
    var l := R.LabelOf(s, m);
    LabelEnabled(s, m);
    I.OnlyStarved(s.ctl, l);
  }

  lemma LabelEnabled(s: R.Sys, m: R.Move)
    requires R.SysInv(s) && R.Enabled(s, m)
    ensures P.Enabled(s.ctl, R.LabelOf(s, m))
  {
  }

  /** In every reachable state: every assertion of the protocol holds, unless a copy destination tries to map while
      nobody is active.  Then, with memory granted, the assertion of `iod_should_retry` fails exactly if the
      destination needs more chunks than the buffer may have, and in any case it holds if the destination needs no more
      than the buffer has. */
  lemma AssertsExact(s: R.Sys, ms: seq<R.Move>, t: R.Sys, m: R.Move)
    requires R.Init(s) && t == R.After(s, ms) && R.Sized(t) && R.Enabled(t, m) && (Alone(t, m) ==> !KindOf(t, m).bulk)
    ensures !Alone(t, m) ==> Asserts(t, m)
    ensures Alone(t, m) && Granted(m.its) ==>
              (Asserts(t, m) <==> Needed(t.pool.cfg, KindOf(t, m), m.its) <= t.pool.cfg.chkMax)
    ensures Alone(t, m) && Needed(t.pool.cfg, KindOf(t, m), m.its) <= t.pool.tot ==> Asserts(t, m)
  {
    R.RunInv(s, ms);
    AssertsShort(t, m);
    if Alone(t, m) {
      ShortExact(t, m);
    }
  }

  // ---------------------------------------------------------------------------------------------
  // A run in which it fails
  // ---------------------------------------------------------------------------------------------

  const CFG := Config(2, 1, 1, false)
  const SOURCE := Kind(Fetch, Local, false, false)
  const TARGET := Kind(Update, Local, false, false)

  /** The source is ten bytes of SCM, the destination two times two pages of NVMe. */
  const FROM := [Item(0, Extent(Scm, 0, 10, 0, 0, false, false), true, true)]
  const TO := [Item(0, Extent(Nvme, 0, 8192, 0, 0, false, false), true, true),
               Item(0, Extent(Nvme, 40960, 8192, 0, 0, false, false), true, true)]

  function IdleIod(k: Kind): P.Iod {
    P.Iod(0, k, false, false, P.Outside, false, false, false, false, false, 0, 0, false, false, 0, 0, 0, 0)
  }

  /** A buffer of one chunk of two pages, and the two descriptors of the copy. */
  function Begin(): R.Sys {
    R.Sys(P.Ctl([IdleIod(SOURCE), IdleIod(TARGET)], [], 0, 0, None, [], [], false),
          GrowN(NewPool(CFG), 1), [Empty(SOURCE), Empty(TARGET)], [[], []], [[], []])
  }

  lemma BeginInit()
    ensures R.Init(Begin())
  {
    assert Begin().pool.cfg == CFG;
    assert Begin().pool == GrowN(NewPool(CFG), 1);
  }

  /** The source is accessed in place. */
  lemma SourceMapped(p: Pool)
    requires p.cfg == CFG
    ensures var r := MapAll(p, Empty(SOURCE), FROM);
            r.rc == Ok && r.pool == p && r.d == Empty(SOURCE)
  {
    assert FROM[..0] == [];
    assert MapAll(p, Empty(SOURCE), []) == MapAllRes(Ok, p, Empty(SOURCE), []);
  }

  lemma TargetNeeds()
    ensures Needed(CFG, TARGET, TO) == 2
  {
    var one := TO[..1];
    var e, f := TO[0].ext, TO[1].ext;
    assert one == [TO[0]] && one[..|one| - 1] == [] && TO[..|TO| - 1] == one;
    assert e.PgCnt() == 2 && f.PgCnt() == 2 && !NoBuffer(CFG, TARGET, e) && !NoBuffer(CFG, TARGET, f);
    assert PackAll(CFG, TARGET, []) == Pack(0, 0, false, None);
    assert PackAll(CFG, TARGET, one) == PackOne(CFG, TARGET, Pack(0, 0, false, None), e);
    assert PackAll(CFG, TARGET, one) == Pack(1, 2, false, Some(NewRegion(0, 0, 0, e)));
  }

  /** The source is prepared and not active. */
  lemma SourceStep(c: P.Ctl)
    requires c == Begin().ctl
    ensures var q := P.Tried(c, 0, P.Mapped(false, true));
            q.active == 0 && q.queued == 0 && |q.iods| == 2 && q.iods[0].prep && q.iods[1] == IdleIod(TARGET)
  {
  }

  lemma SourcePrepared(m: R.Move)
    requires m == R.Move.Prep(0, SOURCE, false, false, FROM, true)
    ensures R.Sized(Begin()) && R.Enabled(Begin(), m)
    ensures var t := R.Step(Begin(), m);
            && R.Sized(t) && t.pool == Begin().pool
            && t.ctl == P.Tried(Begin().ctl, 0, P.Mapped(false, true))
  {
    var s := Begin();
    SourceMapped(s.pool);
    SourceStep(s.ctl);
    assert R.Started(s, m) == s by {
      assert s.rs[0 := Empty(SOURCE)] == s.rs && s.ctl.iods[0 := s.ctl.iods[0]] == s.ctl.iods;
    }
  }

  lemma TargetStarves(t: R.Sys, m: R.Move)
    requires R.SysInv(t) && t.pool.cfg == CFG && t.ctl.active == 0 && t.ctl.queued == 0
    requires |t.ctl.iods| == 2 && t.ctl.iods[1] == IdleIod(TARGET) && m == R.Move.Prep(1, TARGET, false, true, TO, true)
    ensures R.Enabled(t, m) && !Asserts(t, m)
  {
    TargetNeeds();
    AssertsShort(t, m);
    ShortExact(t, m);
  }

  /** The source is prepared, then the destination: the assertion of `iod_should_retry` fails. */
  lemma StarvedRun(m0: R.Move, m1: R.Move)
    requires m0 == R.Move.Prep(0, SOURCE, false, false, FROM, true)
             && m1 == R.Move.Prep(1, TARGET, false, true, TO, true)
    ensures R.Init(Begin()) && R.Enabled(Begin(), m0)
    ensures var t := R.After(Begin(), [m0]);
            R.Sized(t) && R.Enabled(t, m1) && !Asserts(t, m1)
  {
    BeginInit();
    SourcePrepared(m0);
    SourceStep(Begin().ctl);
    assert [m0][..0] == [] && R.After(Begin(), []) == Begin();
    R.RunInv(Begin(), [m0]);
    TargetStarves(R.After(Begin(), [m0]), m1);
  }
}
