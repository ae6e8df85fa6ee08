/** The concurrency protocol around the DMA buffer, as a step system.  Everything a descriptor does between two points
    where it may yield is one step; completions of transfers are steps of the environment.

    Yield points are the two condition variables of the FIFO, the wait for the last transfer, and draining in between
    the transfers of one descriptor. */
module Protocol {
  import opened BioTypes
  import opened SeqLib
  import opened Pool

  /** Where a descriptor is: outside any call, asleep on `bdb_fifo` or signalled there, asleep on `bdb_wait_iod` or
      woken there, between two transfers of `dma_rw`, or in `iod_dma_wait`. */
  datatype Pc = Outside | FifoWait | FifoWoken | HeadWait | HeadWoken | Issuing | DmaWait

  /** The part of `struct bio_desc` that the protocol uses; `ctx` is its I/O context.

      `act` notes that the descriptor is counted in `bdb_active_iods`; `outstanding` is the number of its transfers
      that SPDK has not completed; `preps` and `drops` count how often it joined and left the active descriptors;
      `waits` is how often it waited on `bdb_wait_iod` in this call and `first` the number of active descriptors at the
      first time; `posted` notes that the current buffer was posted.  These are model-only.  `evSet` is the eventual
      `bd_dma_done`. */
  datatype Iod = Iod(ctx: nat, kind: Kind, nonBlocking: bool, copyDst: bool, pc: Pc, inFifo: bool, prep: bool,
                     async: bool, failed: bool, evSet: bool, inflights: int, outstanding: nat, act: bool, posted: bool,
                     preps: nat, drops: nat, waits: nat, first: int)

  /** The protocol part of `struct bio_dma_buffer`.

      `fifo` is the queue of `bdb_fifo` waiters.  Model-only: `head` is the descriptor at the head of the FIFO, `ins`
      and `outs` list the descriptors in the order they entered and left the FIFO, and `jumped` says that a
      non-blocking descriptor became active since the head became head. */
  datatype Ctl = Ctl(iods: seq<Iod>, fifo: seq<nat>, queued: int, active: int,
                     head: Option<nat>, ins: seq<nat>, outs: seq<nat>, jumped: bool)

  /** How an attempt to map all extents ended. */
  datatype Outcome = Mapped(regions: bool, evOk: bool) | Failed(retry: bool)

  function Set(c: Ctl, i: nat, d: Iod): Ctl {
    if i < |c.iods| then c.(iods := c.iods[i := d]) else c
  }

  // ---------------------------------------------------------------------------------------------
  // Steps
  // ---------------------------------------------------------------------------------------------

  /** `ABT_cond_broadcast(bdb_wait_iod)` */
  function WakeAll(iods: seq<Iod>): (r: seq<Iod>)
    ensures |r| == |iods|
    ensures forall k :: 0 <= k < |iods| ==>
            r[k] == if iods[k].pc == HeadWait then iods[k].(pc := HeadWoken) else iods[k]
  {
    seq(|iods|, k requires 0 <= k < |iods| => if iods[k].pc == HeadWait then iods[k].(pc := HeadWoken) else iods[k])
  }

  /** `iod_release_buffer` and `dma_drop_iod` */
  function Drop(c: Ctl, i: nat): (r: Ctl)
    requires i < |c.iods|
    ensures |r.iods| == |c.iods|
  {
    var d := c.iods[i];
    var c1 := Set(c, i, d.(prep := false, act := false, drops := d.drops + 1));
    c1.(active := c.active - 1, iods := WakeAll(c1.iods))
  }

  /** `iod_fifo_out`; a signal wakes the waiter that has waited longest. */
  function FifoOut(c: Ctl, i: nat): (r: Ctl)
    requires i < |c.iods|
    ensures |r.iods| == |c.iods|
  {
    if !c.iods[i].inFifo then c
    else
      var c1 := Set(c, i, c.iods[i].(inFifo := false)).(queued := c.queued - 1, head := None, outs := c.outs + [i]);
      if c1.queued == 0 || c1.fifo == [] || c1.fifo[0] >= |c1.iods| then c1
      else
        var n := c1.fifo[0];
        Set(c1, n, c1.iods[n].(pc := FifoWoken)).(fifo := c1.fifo[1..], head := Some(n), jumped := false)
  }

  /** `iod_should_retry` */
  predicate ShouldRetry(c: Ctl, d: Iod) {
    if d.copyDst then c.active > 1 else c.active != 0
  }

  /** `iod_fifo_wait` up to the wait. */
  function Wait(c: Ctl, i: nat): (r: Ctl)
    requires i < |c.iods|
    ensures |r.iods| == |c.iods|
  {
    var d := c.iods[i];
    var d1 := d.(pc := HeadWait, inFifo := true, waits := d.waits + 1,
                 first := if d.waits == 0 then c.active else d.first);
    if d.inFifo then Set(c, i, d1)
    else Set(c, i, d1).(queued := 1, head := Some(i), ins := c.ins + [i], jumped := false)
  }

  /** A descriptor joins the active ones. */
  function Join(c: Ctl, i: nat): (r: Ctl)
    requires i < |c.iods|
    ensures |r.iods| == |c.iods|
  {
    var d := c.iods[i];
    Set(c, i, d.(act := true, preps := d.preps + 1, posted := false, failed := false, evSet := false,
                 inflights := 0, pc := Outside)).(active := c.active + 1, jumped := c.jumped || d.nonBlocking)
  }

  /** The rest of `iod_prep_internal` after a successful mapping. */
  function Activate(c: Ctl, i: nat, evOk: bool): (r: Ctl)
    requires i < |c.iods|
    ensures |r.iods| == |c.iods|
  {
    var c1 := Join(c, i);
    if !c.iods[i].kind.iod.GetBuf? && !evOk then Drop(c1, i)
    else if c.iods[i].kind.iod.Fetch? then Set(c1, i, c1.iods[i].(pc := Issuing, inflights := 1))
    else c1
  }

  /** `iod_map_iovs` and the rest of `iod_prep_internal`, once the extents were (not) mapped. */
  function Tried(c: Ctl, i: nat, out: Outcome): (r: Ctl)
    requires i < |c.iods|
    ensures |r.iods| == |c.iods|
  {
    match out
    case Mapped(regions, evOk) =>
      var c1 := FifoOut(Set(c, i, c.iods[i].(prep := true, pc := Outside, waits := 0)), i);
      if regions then Activate(c1, i, evOk) else Set(c1, i, c1.iods[i].(posted := false))
    case Failed(retry) =>
      if retry && ShouldRetry(c, c.iods[i]) && !c.iods[i].nonBlocking then Wait(c, i)
      else FifoOut(Set(c, i, c.iods[i].(pc := Outside, waits := 0)), i)
  }

  /** `bio_iod_prep` up to the first attempt to map, or to the wait in `iod_fifo_in`. */
  function Start(c: Ctl, i: nat, kind: Kind, nonBlocking: bool, copyDst: bool): (r: Ctl)
    requires i < |c.iods|
    ensures |r.iods| == |c.iods|
  {
    var d := c.iods[i].(kind := kind, nonBlocking := nonBlocking, copyDst := copyDst);
    if c.queued == 0 || nonBlocking then Set(c, i, d)
    else Set(c, i, d.(inFifo := true, pc := FifoWait)).(queued := c.queued + 1, fifo := c.fifo + [i],
                                                        ins := c.ins + [i])
  }

  /** `bio_iod_post` up to the end or to the first transfer. */
  function Post(c: Ctl, i: nat, err: bool, async: bool): (r: Ctl)
    requires i < |c.iods|
    ensures |r.iods| == |c.iods|
  {
    var d := c.iods[i].(inflights := 0, failed := err, posted := true);
    if !d.prep then c
    else if !d.act then Set(c, i, d.(prep := false))
    else if !err && d.kind.iod.Update? then Set(c, i, d.(async := d.async || async, inflights := 1, pc := Issuing))
    else Drop(Set(c, i, d), i)
  }

  /** The descriptor after one transfer was handed to SPDK, or could not be. */
  function Issued(d: Iod, bad: bool): Iod {
    if bad then d.(failed := true)
    else d.(inflights := d.inflights + 1, outstanding := d.outstanding + 1)
  }

  /** The descriptor after its issue bias is dropped. */
  function Unbiased(d: Iod, pc: Pc): Iod {
    d.(inflights := d.inflights - 1, pc := pc)
  }

  /** The end of `dma_rw`, and of `bio_iod_post` if it is asynchronous. */
  function EndIssue(c: Ctl, i: nat): (r: Ctl)
    requires i < |c.iods|
    ensures |r.iods| == |c.iods|
  {
    var d := c.iods[i];
    if !d.async then Set(c, i, Unbiased(d, DmaWait))
    else if d.inflights == 1 && d.prep then Drop(Set(c, i, Unbiased(d, Outside)), i)
    else Set(c, i, Unbiased(d, Outside))
  }

  /** After `iod_dma_wait`: the end of a fetch prep, or of a synchronous post. */
  function AfterDma(c: Ctl, i: nat): (r: Ctl)
    requires i < |c.iods|
    ensures |r.iods| == |c.iods|
  {
    var d := c.iods[i];
    var c1 := Set(c, i, d.(pc := Outside));
    if d.kind.iod.Fetch? then (if d.failed then Drop(c1, i) else c1)
    else if d.prep then Drop(c1, i) else c1
  }

  /** The descriptor after a completion. */
  function Completed(d: Iod, err: bool): Iod {
    d.(inflights := d.inflights - 1, outstanding := if d.outstanding > 0 then d.outstanding - 1 else 0,
       failed := d.failed || err, evSet := d.evSet || d.inflights == 1)
  }

  /** `rw_completion` */
  function Complete(c: Ctl, i: nat, err: bool): (r: Ctl)
    requires i < |c.iods|
    ensures |r.iods| == |c.iods|
  {
    var d := Completed(c.iods[i], err);
    if d.inflights == 0 && d.async && d.prep then Drop(Set(c, i, d), i) else Set(c, i, d)
  }

  /** What may happen next.  `Again` is a woken descriptor that tries to map; `Prep` tries at once if it need not
      queue. */
  datatype Label =
    | Prep(i: nat, kind: Kind, nonBlocking: bool, copyDst: bool, out: Outcome)
    | Again(i: nat, out: Outcome)
    | PostIod(i: nat, err: bool, async: bool)
    | IssueOne(i: nat, bad: bool)
    | EndRw(i: nat)
    | Resume(i: nat)
    | Done(i: nat, err: bool)

  /** When a step can be taken; callers use a descriptor one call at a time and post a buffer once. */
  predicate Enabled(c: Ctl, l: Label) {
    && l.i < |c.iods|
    && var d := c.iods[l.i];
       match l
       case Prep(_, kind, nb, _, _) => d.pc == Outside && !d.prep && kind.iod == d.kind.iod && (nb ==> !kind.iod.Fetch?)
       case Again(_, _) => d.pc == FifoWoken || d.pc == HeadWoken
       case PostIod(_, _, async) => d.pc == Outside && !(d.prep && d.posted)
       case IssueOne(_, _) => d.pc == Issuing
       case EndRw(_) => d.pc == Issuing
       case Resume(_) => d.pc == DmaWait && (d.inflights == 0 || d.evSet)
       case Done(_, _) => d.outstanding > 0
  }

  function Step(c: Ctl, l: Label): (r: Ctl)
    requires l.i < |c.iods|
    ensures |r.iods| == |c.iods|
  {
    match l
    case Prep(i, kind, nb, dst, out) =>
      var c1 := Start(c, i, kind, nb, dst);
      if c1.iods[i].pc == FifoWait then c1 else Tried(c1, i, out)
    case Again(i, out) => Tried(c, i, out)
    case PostIod(i, err, async) => Post(c, i, err, async)
    case IssueOne(i, bad) => Set(c, i, Issued(c.iods[i], bad))
    case EndRw(i) => EndIssue(c, i)
    case Resume(i) => AfterDma(c, i)
    case Done(i, err) => Complete(c, i, err)
  }
}
