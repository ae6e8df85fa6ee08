/** From the caller's iovs to the media, in any run: what was copied into the buffers of an update is what its extents
    hold on the media when the buffers are given back. */
module CopyRuns {
  import opened BioTypes
  import opened Folding
  import opened SeqLib
  import opened Pool
  import opened PoolInv
  import opened MapProofs
  import opened MapRun
  import opened ReleaseRun
  import opened Transfer
  import opened Copy
  import opened Refinement
  import opened Lookup
  import opened DataRuns
  import P = Protocol
  import I = ProtocolInv
  import R = Runs

  // ---------------------------------------------------------------------------------------------
  // Buffers keep what was copied into them
  // ---------------------------------------------------------------------------------------------

  ghost predicate MemSame(regions: seq<Region>, v: World, w: World) {
    forall g, c, x :: 0 <= g < |regions| && InMem(regions[g], c, x) ==> v.dma(c, x) == w.dma(c, x)
  }

  /** Update i still has the buffers of state t, filled as in `mem`, and if its writes began, they began with that. */
  ghost predicate Carrying(t: All, s: All, i: nat, mem: World) {
    && Sized(t) && Sized(s) && i < |s.ios| == |t.ios|
    && s.sys.rs[i] == t.sys.rs[i] && s.sys.items[i] == t.sys.items[i] && s.sys.places[i] == t.sys.places[i]
    && s.sys.ctl.iods[i].kind.iod.Update? && s.sys.ctl.iods[i].act
    && MemSame(s.sys.rs[i].regions, s.w, mem)
    && (s.sys.ctl.iods[i].posted ==> MemSame(s.sys.rs[i].regions, s.ios[i].was, mem))
  }

  /** A step of another descriptor. */
  lemma CarryOther(t: All, s: All, u: All, i: nat, mem: World)
    requires Carrying(t, s, i, mem) && Left(s, u, i)
    ensures Carrying(t, u, i, mem)
  {
  }

  lemma CarryCtl(t: All, s: All, m: R.Move, i: nat, mem: World)
    requires AllInv(s) && Enabled(s, Ctl(m)) && Carrying(t, s, i, mem) && R.Who(m) == i
    requires Moved(s.sys, m).ctl.iods[i].act
    ensures Carrying(t, Step(s, Ctl(m)), i, mem)
  {
    var l := R.LabelOf(s.sys, m);
    HeldFacts(s.sys, i);
    MovedCtl(s.sys, m);
    MovedSound(s.sys, m);
    HeldFacts(Moved(s.sys, m), i);
    if !l.IssueOne? {
      StepTurned(s.sys.ctl, l);
    }
  }

  /** What a completion leaves of its descriptor, if that keeps its buffer. */
  lemma ArriveKept(s: All, a: Act, i: nat)
    requires AllInv(s) && Enabled(s, a) && a.Arrive? && a.i == i && s.sys.ctl.iods[i].act
    requires Moved(s.sys, R.Other(P.Done(i, a.err))).ctl.iods[i].act
    ensures var t := Moved(s.sys, R.Other(P.Done(i, a.err)));
            && t.rs[i] == s.sys.rs[i] && t.items[i] == s.sys.items[i] && t.places[i] == s.sys.places[i]
            && t.ctl.iods[i].kind == s.sys.ctl.iods[i].kind && t.ctl.iods[i].posted == s.sys.ctl.iods[i].posted
  {
    var m := R.Other(P.Done(i, a.err));
    MovedCtl(s.sys, m);
    MovedSound(s.sys, m);
    HeldFacts(Moved(s.sys, m), i);
    DoneTurned(s.sys.ctl, i, a.err);
  }

  lemma CarryArrive(t: All, s: All, a: Act, i: nat, mem: World)
    requires AllInv(s) && Enabled(s, a) && a.Arrive? && a.i == i && Carrying(t, s, i, mem)
    requires Moved(s.sys, R.Other(P.Done(i, a.err))).ctl.iods[i].act
    ensures Carrying(t, Step(s, a), i, mem)
  {
    ArriveKept(s, a, i);
  }

  lemma TransferLeaves(s: All, n: nat, op: Op, after: World, i: nat)
    requires AllInv(s) && n < |s.ios| && i < |s.ios| && i != n && DataRuns.Within(s.ios[n], op)
             && (Writes(s, n) ==> Alone(s, n))
    requires Scribbles(Writes(s, n), s.w, after, op)
    ensures Leaves(s.w, after, s.sys.rs[i].regions)
  {
    IoAt(s, n);
    OthersLeft(s, n, i, op, after);
  }

  /** Descriptor i is as it was, and so is its data. */
  ghost predicate Left(s: All, u: All, i: nat)
    requires Sized(s) && i < |s.ios|
  {
    Sized(u) && R.Untouched(s.sys, u.sys, i) && i < |u.ios| && u.ios[i] == s.ios[i]
      && Leaves(s.w, u.w, s.sys.rs[i].regions)
  }

  lemma ArriveLeft(s: All, a: Act, i: nat)
    requires AllInv(s) && Enabled(s, a) && a.Arrive? && i < |s.ios| && a.i != i
    ensures Left(s, Step(s, a), i)
  {
    MovedOthers(s.sys, R.Other(P.Done(a.i, a.err)), i);
    DoScribbles(Writes(s, a.i), s.w, s.ios[a.i].sent[a.k]);
    TransferLeaves(s, a.i, s.ios[a.i].sent[a.k], Step(s, a).w, i);
  }

  lemma MoveLeft(s: All, a: Act, i: nat)
    requires AllInv(s) && Enabled(s, a) && (a.Ctl? || a.Send?) && i < |s.ios| && Mover(a) != i
    ensures Left(s, Step(s, a), i)
  {
    MovedOthers(s.sys, if a.Ctl? then a.m else R.Other(P.IssueOne(a.i, false)), i);
  }

  lemma InPlaceLeft(s: All, a: Act, i: nat)
    requires AllInv(s) && Enabled(s, a) && (a.Copy? || a.Drift? || a.Fill?) && i < |s.ios| && a.i != i
    ensures Left(s, Step(s, a), i)
  {
    match a
    case Copy(n) =>
      DoScribbles(Writes(s, n), s.w, s.ios[n].todo[0]);
      TransferLeaves(s, n, s.ios[n].todo[0], Step(s, a).w, i);
    case Drift(n, k, after) => TransferLeaves(s, n, s.ios[n].sent[k], after, i);
    case Fill(n, after) => FillLeaves(s, n, after, i);
  }

  /** What a step of another descriptor does to descriptor i. */
  lemma StepLeaves(s: All, a: Act, i: nat)
    requires AllInv(s) && Enabled(s, a) && i < |s.ios| && Mover(a) != i
    ensures Left(s, Step(s, a), i)
  {
    match a
    case Ctl(_) => MoveLeft(s, a, i);
    case Send(_) => MoveLeft(s, a, i);
    case Arrive(_, _, _, _) => ArriveLeft(s, a, i);
    case _ => InPlaceLeft(s, a, i);
  }

  /** The descriptor that a step concerns. */
  function Mover(a: Act): nat {
    match a
    case Ctl(m) => R.Who(m)
    case Copy(i) => i
    case Send(i) => i
    case Drift(i, _, _) => i
    case Arrive(i, _, _, _) => i
    case Fill(i, _) => i
  }

  /** Its own writes change no memory. */
  lemma CarryWrites(t: All, s: All, a: Act, i: nat, mem: World)
    requires AllInv(s) && Enabled(s, a) && (a.Copy? || a.Send? || a.Drift?) && a.i == i && Carrying(t, s, i, mem)
    ensures Carrying(t, Step(s, a), i, mem)
  {
  }

  /** One step that does not fill the buffers of update i and after which it still has them. */
  lemma CarryStep(t: All, s: All, a: Act, i: nat, mem: World)
    requires AllInv(s) && Enabled(s, a) && Carrying(t, s, i, mem) && !(a.Fill? && a.i == i)
    requires Sized(Step(s, a)) && i < |Step(s, a).ios| && Step(s, a).sys.ctl.iods[i].act
    ensures Carrying(t, Step(s, a), i, mem)
  {
    if Mover(a) != i {
      StepLeaves(s, a, i);
      CarryOther(t, s, Step(s, a), i, mem);
    } else {
      match a
      case Ctl(m) => CarryCtl(t, s, m, i, mem);
      case Arrive(_, _, _, _) => CarryArrive(t, s, a, i, mem);
      case _ => CarryWrites(t, s, a, i, mem);
    }
  }

  /** In a run from s, nobody fills the buffers of descriptor i, and it does not give them back. */
  ghost predicate Stays(s: All, acts: seq<Act>, i: nat)
    decreases |acts|
  {
    acts == [] ||
    (&& Stays(s, acts[..|acts| - 1], i)
     && !(acts[|acts| - 1].Fill? && acts[|acts| - 1].i == i)
     && Sized(After(s, acts)) && i < |After(s, acts).ios| && After(s, acts).sys.ctl.iods[i].act)
  }

  lemma {:induction false} CarryRun(t: All, acts: seq<Act>, i: nat, mem: World)
    requires AllInv(t) && Carrying(t, t, i, mem) && Stays(t, acts, i)
    ensures AllInv(After(t, acts)) && Carrying(t, After(t, acts), i, mem)
    decreases |acts|
  {
    if acts != [] {
      var a := acts[|acts| - 1];
      CarryRun(t, acts[..|acts| - 1], i, mem);
      var s := After(t, acts[..|acts| - 1]);
      if Enabled(s, a) {
        StepInv(s, a);
        CarryStep(t, s, a, i, mem);
      }
    }
  }

  // ---------------------------------------------------------------------------------------------
  // From the iovs to the media
  // ---------------------------------------------------------------------------------------------

  /** The bytes of all extents, in order, as `bio_iod_copy` left them. */
  ghost predicate DataOf(data: seq<seq<Byte>>, bsgls: seq<seq<Bio>>) {
    forall n, j :: 0 <= n < |bsgls| && 0 <= j < |bsgls[n]| && bsgls[n][j].buf.Some? ==>
                     Start(bsgls, n) + j < |data| && data[Start(bsgls, n) + j] == bsgls[n][j].buf.value
  }

  lemma DataAt(data: seq<seq<Byte>>, bsgls: seq<seq<Bio>>, n: nat, j: nat, k: nat)
    requires DataOf(data, bsgls) && n < |bsgls| && j < |bsgls[n]| && bsgls[n][j].buf.Some? && k == Start(bsgls, n) + j
    ensures k < |data| && data[k] == bsgls[n][j].buf.value
  {
  }

  /** The caller copies `data` into the buffers of its prepared update i. */
  ghost predicate Copies(t: All, i: nat, data: seq<seq<Byte>>) {
    && Sized(t) && i < |t.ios| && t.sys.ctl.iods[i].kind.iod.Update? && Fit(t.sys.places[i], data)
    && Enabled(t, Fill(i, CopyIn(t.w, t.sys.places[i], data, |t.sys.places[i]|)))
  }

  ghost function Copying(t: All, i: nat, data: seq<seq<Byte>>): All
    requires Copies(t, i, data)
  {
    Step(t, Fill(i, CopyIn(t.w, t.sys.places[i], data, |t.sys.places[i]|)))
  }

  /** Right after the copy each buffer holds its bytes. */
  lemma CopiedByte(t: All, i: nat, data: seq<seq<Byte>>, w: World, k: nat, pl: Place, x: nat, y: nat)
    requires AllInv(t) && Copies(t, i, data) && NoOverlap(t.sys.items[i]) && k < |t.sys.places[i]|
             && pl == t.sys.places[i][k]
    requires w == CopyIn(t.w, t.sys.places[i], data, |t.sys.places[i]|)
    requires !pl.buf.Null? && x < |data[k]| && y == pl.ext.prefix + x
    ensures Get(w, pl.buf, y) == data[k][x]
  {
    PreparedAt(t.sys, i);
    forall l | 0 <= l < |t.sys.places[i]| && l != k ensures BufApart(t.sys.places[i][k], t.sys.places[i][l]) {
      BuffersApart(t.sys.pool, t.sys.rs, i, t.sys.items[i], t.sys.places[i], k, l);
    }
    CopyInByte(t.w, t.sys.places[i], data, |t.sys.places[i]|, k, x);
  }

  /** Byte y of a DMA buffer, seen from a memory that agrees on the regions. */
  lemma BufferKept(s: R.Sys, i: nat, v: World, w: World, k: nat, y: nat)
    requires Sound(s) && |s.rs| == |s.items| == |s.places| == |s.ctl.iods| && i < |s.rs| && s.ctl.iods[i].prep
    requires MemSame(s.rs[i].regions, v, w) && k < |s.places[i]| && s.places[i][k].buf.Dma?
             && y < s.places[i][k].ext.len
    ensures Get(v, s.places[i][k].buf, y) == Get(w, s.places[i][k].buf, y)
  {
    HeldFacts(s, i);
    PreparedAt(s, i);
    PlaceAt(s.pool, s.rs, i, s.items[i], s.places[i], k);
    BufferByte(s.rs[i].regions[s.places[i][k].rg], s.places[i][k].ext, s.places[i][k].buf, y);
  }

  lemma ExtentAt(s: R.Sys, i: nat, k: nat)
    requires Sound(s) && |s.rs| == |s.items| == |s.places| == |s.ctl.iods| && i < |s.rs| && s.ctl.iods[i].prep
    requires k < |s.places[i]| == |s.items[i]|
    ensures s.places[i][k].ext == s.items[i][k].ext
  {
    PreparedAt(s, i);
    PlaceAt(s.pool, s.rs, i, s.items[i], s.places[i], k);
  }

  /** The media after all writes, when they began with the memory `mem`. */
  lemma ExtentCarried(s: R.Sys, w: World, did: seq<Op>, was: World, mem: World, i: nat, k: nat, pl: Place, y: nat)
    requires Sound(s) && |s.rs| == |s.items| == |s.places| == |s.ctl.iods| && i < |s.rs|
    requires s.ctl.iods[i].prep && s.ctl.iods[i].kind.iod.Update? && WrittenOut(s, w, did, was, i)
    requires MemSame(s.rs[i].regions, was, mem) && NoOverlap(s.items[i])
    requires k < |s.places[i]| == |s.items[i]| && pl == s.places[i][k] && pl.buf.Dma? && y < pl.ext.len
    ensures w.Dev(pl.ext.media, pl.ext.off + y) == Get(mem, pl.buf, y)
  {
    ExtentAt(s, i, k);
    UpdateExtent(s, w, did, was, i, k, y);
    BufferKept(s, i, was, mem, k, y);
  }

  /** An update that gives its buffers back puts out what they held in state c. */
  lemma GiveCarried(c: All, u: All, a: Act, i: nat, k: nat, pl: Place, y: nat) returns (w: World)
    requires AllInv(u) && Carrying(c, u, i, c.w) && Gives(u, a, i) && NoOverlap(c.sys.items[i])
    requires k < |c.sys.places[i]| == |c.sys.items[i]| && pl == c.sys.places[i][k] && pl.buf.Dma? && y < pl.ext.len
    ensures w == Step(u, a).w && w.Dev(pl.ext.media, pl.ext.off + y) == Get(c.w, pl.buf, y)
  {
    var did;
    w, did := GivesSynced(u, a, i);
    ExtentCarried(u.sys, w, did, u.ios[i].was, c.w, i, k, pl, y);
  }

  lemma CopyKeepsInv(t: All, i: nat, data: seq<seq<Byte>>)
    requires AllInv(t) && Copies(t, i, data) && t.sys.ctl.iods[i].act
    ensures var c := Copying(t, i, data);
            && AllInv(c) && c.sys == t.sys && Carrying(c, c, i, c.w)
            && c.w == CopyIn(t.w, t.sys.places[i], data, |t.sys.places[i]|)
  {
    StepInv(t, Fill(i, CopyIn(t.w, t.sys.places[i], data, |t.sys.places[i]|)));
  }

  /** Copy, any run, and the buffers given back. */
  lemma CopyThenGive(t: All, i: nat, data: seq<seq<Byte>>, c: All, acts: seq<Act>, u: All, a: Act, k: nat, pl: Place,
                     x: nat, y: nat) returns (w: World)
    requires AllInv(t) && Copies(t, i, data) && c == Copying(t, i, data) && t.sys.ctl.iods[i].act
             && NoOverlap(t.sys.items[i])
    requires Stays(c, acts, i) && u == After(c, acts) && Gives(u, a, i)
    requires k < |t.sys.places[i]| == |t.sys.items[i]| && pl == t.sys.places[i][k] && pl.buf.Dma? && x < |data[k]|
    requires y == pl.ext.prefix + x
    ensures w == Step(u, a).w && w.Dev(pl.ext.media, pl.ext.off + y) == data[k][x]
  {
    CopyKeepsInv(t, i, data);
    CopiedByte(t, i, data, c.w, k, pl, x, y);
    CarryRun(c, acts, i, c.w);
    w := GiveCarried(c, u, a, i, k, pl, y);
  }

  /** A list that was copied by an update, folded. */
  ghost predicate ListCopied(sgl: Sgl, out: Sgl, was: seq<Bio>, bios: seq<Bio>) {
    forall x {:trigger Look(x)} :: Look(x) ==> SglDone(false, sgl, out, was, bios)
  }

  /** Extent j of a copied list is its slice of the iovs; byte x of it is byte `pos` of them. */
  lemma SliceOf(sgl: Sgl, out: Sgl, was: seq<Bio>, bios: seq<Bio>, j: nat, x: nat) returns (pos: nat)
    requires ListCopied(sgl, out, was, bios) && j < |bios| && bios[j].buf.Some? && x < |bios[j].buf.value|
    ensures pos == Total(bios[..j]) + x && pos < |Flat(false, sgl.iovs)|
            && Flat(false, sgl.iovs)[pos] == bios[j].buf.value[x]
  {
    assert Look(0);
    StreamSlice(bios, Flat(false, sgl.iovs), j, x);
    pos := Total(bios[..j]) + x;
  }

  /** The whole way of an update in any run.  List n was copied into the buffers of descriptor i (`bsgls` is the result
      of `bio_iod_copy` on all lists, `data` the bytes of all extents), the buffers were not filled again, and they are
      given back without an error, which leaves memory and media `w`: then extent j of the list on its medium is its
      slice of the concatenated iovs of the list. */
  lemma IovsReachMedia(s: All, pre: seq<Act>, t: All, i: nat, sgl: Sgl, out: Sgl, was: seq<Bio>, bsgls: seq<seq<Bio>>,
                       data: seq<seq<Byte>>, c: All, acts: seq<Act>, u: All, a: Act,
                       n: nat, j: nat, k: nat, pl: Place, x: nat, y: nat) returns (w: World, pos: nat)
    requires DataRuns.Init(s) && t == After(s, pre)
    requires Copies(t, i, data) && c == Copying(t, i, data) && t.sys.ctl.iods[i].act && NoOverlap(t.sys.items[i])
    requires DataOf(data, bsgls) && n < |bsgls| && ListCopied(sgl, out, was, bsgls[n])
    requires j < |bsgls[n]| && bsgls[n][j].buf.Some? && x < |bsgls[n][j].buf.value|
    requires Stays(c, acts, i) && u == After(c, acts) && Gives(u, a, i)
    requires k == Start(bsgls, n) + j < |t.sys.places[i]| == |t.sys.items[i]| && t.sys.places[i][k].buf.Dma?
    requires pl == t.sys.places[i][k] && y == pl.ext.prefix + x
    ensures w == Step(u, a).w && pos == Total(bsgls[n][..j]) + x < |Flat(false, sgl.iovs)|
    ensures w.Dev(pl.ext.media, pl.ext.off + y) == Flat(false, sgl.iovs)[pos]
  {
    pos := SliceOf(sgl, out, was, bsgls[n], j, x);
    DataAt(data, bsgls, n, j, k);
    DataRuns.RunInv(s, pre);
    w := CopyThenGive(t, i, data, c, acts, u, a, k, pl, x, y);
  }
}
