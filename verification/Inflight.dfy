/** In-flight accounting of I/O contexts and of the blobstore's I/O channel: transfers of descriptors, batched and
    single unmaps, and closing a blob (bio_buffer.c and bio_context.c). */
module Inflight {
  import opened BioTypes
  import opened Pool
  import P = Protocol
  import I = ProtocolInv

  /** `struct bio_io_context`; `sent` counts the close messages. */
  datatype Ctx = Ctx(blob: bool, closing: bool, inflight: int, sent: nat)

  /** A call of `blob_unmap_sgl` (batched) or `bio_blob_unmap`.  `left` is `bca_inflights`, `out` the number of unmap
      commands that SPDK has not completed, `bias` says that the call still issues commands. */
  datatype Unmap = Unmap(ctx: nat, batched: bool, left: int, out: nat, bias: bool, live: bool)

  /** `rw` is `bxb_blob_rw`.  Model-only: `passed` holds the descriptors that are issuing the transfers of a region for
      which `nvme_rw` found the blob valid, each with the number of close messages at that time. */
  datatype Net = Net(ctl: P.Ctl, rw: int, ctxs: seq<Ctx>, unmaps: seq<Unmap>, passed: map<nat, nat>)

  /** `Check` is the test of `nvme_rw` at the start of a region when it succeeds, `Leave` the end of the region. */
  datatype Event =
    | Iod(l: P.Label)
    | Check(i: nat)
    | Leave(i: nat)
    | UnmapStart(x: nat, batched: bool)
    | UnmapIssue(u: nat)
    | UnmapIssued(u: nat)
    | UnmapDone(u: nat)
    | UnmapReturn(u: nat)
    | Close(x: nat)
    | Closed(x: nat, ok: bool)

  function Add(n: Net, x: nat, k: int): Net {
    if x < |n.ctxs| then n.(ctxs := n.ctxs[x := n.ctxs[x].(inflight := n.ctxs[x].inflight + k)]) else n
  }

  predicate Valid(c: Ctx) {
    c.blob && !c.closing
  }

  /** `bio_blob_close` sends its message. */
  predicate CloseSends(c: Ctx) {
    c.blob && !c.closing && c.inflight == 0
  }

  predicate Enabled(n: Net, e: Event) {
    match e
    case Iod(l) => P.Enabled(n.ctl, l) && (l.IssueOne? && !l.bad ==> l.i in n.passed)
    case Check(i) => && i < |n.ctl.iods| && n.ctl.iods[i].pc == P.Issuing && n.ctl.iods[i].ctx < |n.ctxs|
                     && Valid(n.ctxs[n.ctl.iods[i].ctx])
    case Leave(i) => i in n.passed
    case UnmapStart(x, _) => x < |n.ctxs| && Valid(n.ctxs[x])
    case UnmapIssue(u) => u < |n.unmaps| && n.unmaps[u].live && n.unmaps[u].bias && n.unmaps[u].batched
    case UnmapIssued(u) => u < |n.unmaps| && n.unmaps[u].live && n.unmaps[u].bias && n.unmaps[u].batched
    case UnmapDone(u) => u < |n.unmaps| && n.unmaps[u].live && n.unmaps[u].out > 0
    case UnmapReturn(u) => u < |n.unmaps| && n.unmaps[u].live && !n.unmaps[u].bias && n.unmaps[u].left == 0
    case Close(x) => x < |n.ctxs|
    case Closed(x, _) => x < |n.ctxs| && n.ctxs[x].closing
  }

  function SetU(n: Net, u: nat, m: Unmap): Net {
    if u < |n.unmaps| then n.(unmaps := n.unmaps[u := m]) else n
  }

  function Step(n: Net, e: Event): Net
    requires Enabled(n, e)
  {
    match e
    case Iod(l) =>
      var x := n.ctl.iods[l.i].ctx;
      var n1 := n.(ctl := P.Step(n.ctl, l));
      (match l
       case IssueOne(_, bad) => if bad then n1 else Add(n1.(rw := n.rw + 1), x, 1)
       case Done(_, _) => Add(n1.(rw := n.rw - 1), x, -1)
       case EndRw(i) => n1.(passed := n.passed - {i})
       case _ => n1)
    case Check(i) => n.(passed := n.passed[i := n.ctxs[n.ctl.iods[i].ctx].sent])
    case Leave(i) => n.(passed := n.passed - {i})
    case UnmapStart(x, batched) =>
      Add(n.(unmaps := n.unmaps + [Unmap(x, batched, 1, if batched then 0 else 1, batched, true)]), x, 1)
    case UnmapIssue(u) =>
      var m := n.unmaps[u];
      SetU(n.(rw := n.rw + 1), u, m.(left := m.left + 1, out := m.out + 1))
    case UnmapIssued(u) =>
      var m := n.unmaps[u];
      SetU(n, u, m.(left := m.left - 1, bias := false))
    case UnmapDone(u) =>
      var m := n.unmaps[u];
      SetU(n.(rw := if m.batched then n.rw - 1 else n.rw), u, m.(left := m.left - 1, out := m.out - 1))
    case UnmapReturn(u) =>
      var m := n.unmaps[u];
      Add(SetU(n, u, m.(live := false)), m.ctx, -1)
    case Close(x) =>
      var c := n.ctxs[x];
      if CloseSends(c) then n.(ctxs := n.ctxs[x := c.(closing := true, sent := c.sent + 1)]) else n
    case Closed(x, ok) =>
      var c := n.ctxs[x];
      n.(ctxs := n.ctxs[x := c.(closing := false, blob := if ok then false else c.blob)])
  }

  // ---------------------------------------------------------------------------------------------
  // Conservation
  // ---------------------------------------------------------------------------------------------

  function OutOf(d: P.Iod): nat {
    d.outstanding
  }

  function OutOn(x: nat): P.Iod -> nat {
    (d: P.Iod) => if d.ctx == x then d.outstanding else 0
  }

  ghost function SumU(s: seq<Unmap>, f: Unmap -> nat): nat {
    if s == [] then 0 else SumU(s[..|s| - 1], f) + f(s[|s| - 1])
  }

  lemma {:induction false} SumUUpdate(s: seq<Unmap>, f: Unmap -> nat, i: nat, m: Unmap)
    requires i < |s|
    ensures SumU(s[i := m], f) == SumU(s, f) - f(s[i]) + f(m)
    ensures SumU(s, f) >= f(s[i])
  {
    var n := |s| - 1;
    if i == n {
      assert s[i := m][..n] == s[..n];
    } else {
      SumUUpdate(s[..n], f, i, m);
      assert s[i := m][..n] == s[..n][i := m];
    }
  }

  lemma SumUSnoc(s: seq<Unmap>, f: Unmap -> nat, m: Unmap)
    ensures SumU(s + [m], f) == SumU(s, f) + f(m)
  {
    assert (s + [m])[..|s|] == s;
  }

  function Batched(m: Unmap): nat {
    if m.batched then m.out else 0
  }

  function CallOn(x: nat): Unmap -> nat {
    (m: Unmap) => if m.ctx == x && m.live then 1 else 0
  }

  /** `bca_inflights` is the outstanding commands of the call plus its bias; a call that returned has none. */
  predicate UnmapOk(m: Unmap) {
    && m.left == m.out + (if m.bias then 1 else 0)
    && (!m.live ==> m.out == 0 && !m.bias)
  }

  /** `bic_inflight_dmas` is the outstanding transfers of the context's descriptors plus its unmap calls. */
  ghost predicate CtxOk(n: Net, x: nat)
    requires x < |n.ctxs|
  {
    n.ctxs[x].inflight == I.Sum(n.ctl.iods, OutOn(x)) + SumU(n.unmaps, CallOn(x))
  }

  ghost predicate NetInv(n: Net) {
    && I.CtlInv(n.ctl)
    && (forall u :: 0 <= u < |n.unmaps| ==> UnmapOk(n.unmaps[u]))
    && n.rw == I.Sum(n.ctl.iods, OutOf) + SumU(n.unmaps, Batched)
    && (forall x :: 0 <= x < |n.ctxs| ==> CtxOk(n, x))
  }

  function Delta(l: P.Label): int {
    match l
    case IssueOne(_, bad) => if bad then 0 else 1
    case Done(_, _) => -1
    case _ => 0
  }

  /** Descriptor i of q has the context and the outstanding transfers of d. */
  predicate Same(d: P.Iod, q: P.Ctl, i: nat) {
    i < |q.iods| && q.iods[i].outstanding == d.outstanding && q.iods[i].ctx == d.ctx
  }

  lemma ActivateSelf(c: P.Ctl, i: nat, evOk: bool)
    requires i < |c.iods|
    ensures Same(c.iods[i], P.Activate(c, i, evOk), i)
  {
    var c1 := P.Join(c, i);
    assert P.Set(c1, i, c1.iods[i]) == c1;
    I.DropSelf(c1, i, c1.iods[i]);
  }

  lemma TriedSelf(c: P.Ctl, i: nat, out: P.Outcome)
    requires i < |c.iods|
    ensures Same(c.iods[i], P.Tried(c, i, out), i)
  {
    match out
    case Mapped(regions, evOk) =>
      var d := c.iods[i].(prep := true, pc := P.Outside, waits := 0);
      I.OutSelf(c, i, d);
      ActivateSelf(P.FifoOut(P.Set(c, i, d), i), i, evOk);
    case Failed(retry) =>
      I.OutSelf(c, i, c.iods[i].(pc := P.Outside, waits := 0));
  }

  lemma PrepSelf(c: P.Ctl, i: nat, kind: Kind, nb: bool, dst: bool, out: P.Outcome)
    requires i < |c.iods|
    ensures Same(c.iods[i], P.Step(c, P.Prep(i, kind, nb, dst, out)), i)
  {
    var c1 := P.Start(c, i, kind, nb, dst);
    assert Same(c.iods[i], c1, i);
    TriedSelf(c1, i, out);
  }

  lemma PostSelf(c: P.Ctl, i: nat, err: bool, async: bool)
    requires i < |c.iods|
    ensures Same(c.iods[i], P.Post(c, i, err, async), i)
  {
    I.DropSelf(c, i, c.iods[i].(inflights := 0, failed := err, posted := true));
  }

  lemma EndIssueSelf(c: P.Ctl, i: nat)
    requires i < |c.iods|
    ensures Same(c.iods[i], P.EndIssue(c, i), i)
  {
    I.DropSelf(c, i, P.Unbiased(c.iods[i], P.Outside));
  }

  lemma AfterDmaSelf(c: P.Ctl, i: nat)
    requires i < |c.iods|
    ensures Same(c.iods[i], P.AfterDma(c, i), i)
  {
    I.DropSelf(c, i, c.iods[i].(pc := P.Outside));
  }

  lemma CompleteSelf(c: P.Ctl, i: nat, err: bool)
    requires i < |c.iods| && c.iods[i].outstanding > 0
    ensures Same(P.Completed(c.iods[i], err), P.Complete(c, i, err), i)
  {
    I.DropSelf(c, i, P.Completed(c.iods[i], err));
  }

  /** Only issuing and completing change the outstanding transfers, and only of the descriptor itself. */
  lemma OutstandingStep(c: P.Ctl, l: P.Label)
    requires P.Enabled(c, l)
    ensures var q := P.Step(c, l);
            l.i < |q.iods| && q.iods[l.i].outstanding == c.iods[l.i].outstanding + Delta(l)
              && q.iods[l.i].ctx == c.iods[l.i].ctx
  {
    match l
    case Prep(i, kind, nb, dst, out) => PrepSelf(c, i, kind, nb, dst, out);
    case Again(i, out) => TriedSelf(c, i, out);
    case PostIod(i, err, async) => PostSelf(c, i, err, async);
    case IssueOne(i, bad) =>
    case EndRw(i) => EndIssueSelf(c, i);
    case Resume(i) => AfterDmaSelf(c, i);
    case Done(i, err) => CompleteSelf(c, i, err);
  }

  /** How a count of outstanding transfers changes: only the descriptor of the step matters. */
  lemma SumStep(c: P.Ctl, l: P.Label, f: P.Iod -> nat)
    requires P.Enabled(c, l)
    requires forall d: P.Iod, e: P.Iod :: d.ctx == e.ctx && d.outstanding == e.outstanding ==> f(d) == f(e)
    ensures I.Sum(P.Step(c, l).iods, f) == I.Sum(c.iods, f) - f(c.iods[l.i]) + f(P.Step(c, l).iods[l.i])
  {
    var q := P.Step(c, l);
    var mid := c.iods[l.i := q.iods[l.i]];
    I.SumUpdate(c.iods, f, l.i, q.iods[l.i]);
    forall k | 0 <= k < |c.iods| && k != l.i ensures f(q.iods[k]) == f(c.iods[k]) {
      I.OthersKept(c, l, k);
    }
    I.SumSame(mid, q.iods, f);
  }

  /** A step of a descriptor. */
  lemma IodInv(n: Net, l: P.Label)
    requires NetInv(n) && Enabled(n, Iod(l)) && n.ctl.iods[l.i].ctx < |n.ctxs|
    ensures NetInv(Step(n, Iod(l)))
  {
    var r := Step(n, Iod(l));
    I.StepInv(n.ctl, l);
    OutstandingStep(n.ctl, l);
    SumStep(n.ctl, l, OutOf);
    forall x | 0 <= x < |r.ctxs| ensures CtxOk(r, x) {
      IodCtx(n, l, x);
    }
  }

  lemma IodCtx(n: Net, l: P.Label, x: nat)
    requires Enabled(n, Iod(l)) && n.ctl.iods[l.i].ctx < |n.ctxs| && x < |n.ctxs| && CtxOk(n, x)
    ensures CtxOk(Step(n, Iod(l)), x)
  {
    OutstandingStep(n.ctl, l);
    SumStep(n.ctl, l, OutOn(x));
  }

  /** A change of one unmap call that keeps the count of calls per context, or ends the call. */
  lemma UnmapInv(n: Net, e: Event)
    requires NetInv(n) && Enabled(n, e) && (e.UnmapIssue? || e.UnmapIssued? || e.UnmapDone? || e.UnmapReturn?)
    ensures NetInv(Step(n, e))
  {
    var r := Step(n, e);
    assert UnmapOk(n.unmaps[e.u]);
    SumUUpdate(n.unmaps, Batched, e.u, r.unmaps[e.u]);
    forall x | 0 <= x < |r.ctxs| ensures CtxOk(r, x) {
      UnmapCtx(n, e, x);
    }
  }

  lemma UnmapCtx(n: Net, e: Event, x: nat)
    requires Enabled(n, e) && (e.UnmapIssue? || e.UnmapIssued? || e.UnmapDone? || e.UnmapReturn?)
    requires x < |n.ctxs| && CtxOk(n, x)
    ensures CtxOk(Step(n, e), x)
  {
    SumUUpdate(n.unmaps, CallOn(x), e.u, Step(n, e).unmaps[e.u]);
  }

  lemma UnmapStartInv(n: Net, x: nat, batched: bool)
    requires NetInv(n) && Enabled(n, UnmapStart(x, batched))
    ensures NetInv(Step(n, UnmapStart(x, batched)))
  {
    var r := Step(n, UnmapStart(x, batched));
    var m := r.unmaps[|n.unmaps|];
    SumUSnoc(n.unmaps, Batched, m);
    forall y | 0 <= y < |r.ctxs| ensures CtxOk(r, y) {
      assert CtxOk(n, y);
      SumUSnoc(n.unmaps, CallOn(y), m);
    }
  }

  lemma CloseInv(n: Net, e: Event)
    requires NetInv(n) && Enabled(n, e) && (e.Close? || e.Closed? || e.Check? || e.Leave?)
    ensures NetInv(Step(n, e))
  {
    var r := Step(n, e);
    forall y | 0 <= y < |r.ctxs| ensures CtxOk(r, y) {
      assert CtxOk(n, y);
    }
  }

  /** Every descriptor works on a known context. */
  ghost predicate Homes(n: Net) {
    forall i :: 0 <= i < |n.ctl.iods| ==> n.ctl.iods[i].ctx < |n.ctxs|
  }

  lemma HomesKept(n: Net, e: Event)
    requires Homes(n) && Enabled(n, e)
    ensures Homes(Step(n, e))
  {
    if e.Iod? {
      OutstandingStep(n.ctl, e.l);
      var q := P.Step(n.ctl, e.l);
      forall k | 0 <= k < |q.iods| ensures q.iods[k].ctx < |n.ctxs| {
        if k != e.l.i {
          I.OthersKept(n.ctl, e.l, k);
        }
      }
    }
  }

  /** A descriptor that passed the test finds the blob valid as long as no close message was sent. */
  ghost predicate Tested(n: Net) {
    forall i :: i in n.passed ==> && i < |n.ctl.iods| && n.ctl.iods[i].ctx < |n.ctxs|
                                  && var c := n.ctxs[n.ctl.iods[i].ctx];
                                     n.passed[i] <= c.sent && (n.passed[i] == c.sent ==> Valid(c))
  }

  lemma CtxKept(c: P.Ctl, l: P.Label, k: nat)
    requires P.Enabled(c, l) && k < |c.iods|
    ensures k < |P.Step(c, l).iods| && P.Step(c, l).iods[k].ctx == c.iods[k].ctx
  {
    if k == l.i {
      OutstandingStep(c, l);
    } else {
      I.OthersKept(c, l, k);
    }
  }

  lemma TestedKept(n: Net, e: Event)
    requires Tested(n) && Enabled(n, e)
    ensures Tested(Step(n, e))
  {
    var r := Step(n, e);
    forall i | i in r.passed
      ensures && i < |r.ctl.iods| && r.ctl.iods[i].ctx < |r.ctxs|
              && var c := r.ctxs[r.ctl.iods[i].ctx];
                 r.passed[i] <= c.sent && (r.passed[i] == c.sent ==> Valid(c))
    {
      if e.Iod? {
        CtxKept(n.ctl, e.l, i);
      }
    }
  }

  /** In-flight conservation: every event keeps the counts exact. */
  lemma NetStepInv(n: Net, e: Event)
    requires NetInv(n) && Homes(n) && Tested(n) && Enabled(n, e)
    ensures NetInv(Step(n, e)) && Homes(Step(n, e)) && Tested(Step(n, e))
  {
    TestedKept(n, e);
    HomesKept(n, e);
    match e
    case Iod(l) => IodInv(n, l);
    case Check(i) => CloseInv(n, e);
    case Leave(i) => CloseInv(n, e);
    case UnmapStart(x, batched) => UnmapStartInv(n, x, batched);
    case UnmapIssue(u) => UnmapInv(n, e);
    case UnmapIssued(u) => UnmapInv(n, e);
    case UnmapDone(u) => UnmapInv(n, e);
    case UnmapReturn(u) => UnmapInv(n, e);
    case Close(x) => CloseInv(n, e);
    case Closed(x, ok) => CloseInv(n, e);
  }

  // ---------------------------------------------------------------------------------------------
  // Runs
  // ---------------------------------------------------------------------------------------------

  ghost function After(n: Net, es: seq<Event>): Net {
    if es == [] then n
    else
      var m := After(n, es[..|es| - 1]);
      if Enabled(m, es[|es| - 1]) then Step(m, es[|es| - 1]) else m
  }

  lemma {:induction false} NothingOut(s: seq<P.Iod>, f: P.Iod -> nat)
    requires forall i :: 0 <= i < |s| ==> f(s[i]) == 0
    ensures I.Sum(s, f) == 0
  {
    if s != [] {
      NothingOut(s[..|s| - 1], f);
    }
  }

  /** Conservation in every reachable state; an event that cannot happen is skipped. */
  lemma {:induction false} Conservation(n: Net, es: seq<Event>)
    requires I.Init(n.ctl) && n.rw == 0 && n.unmaps == [] && n.passed == map[] && Homes(n)
    requires forall x :: 0 <= x < |n.ctxs| ==> n.ctxs[x].inflight == 0
    ensures NetInv(After(n, es)) && Homes(After(n, es)) && Tested(After(n, es))
    decreases |es|
  {
    if es == [] {
      I.RunInv(n.ctl, []);
      NothingOut(n.ctl.iods, OutOf);
      forall x | 0 <= x < |n.ctxs| ensures CtxOk(n, x) {
        NothingOut(n.ctl.iods, OutOn(x));
      }
    } else {
      Conservation(n, es[..|es| - 1]);
      var m := After(n, es[..|es| - 1]);
      if Enabled(m, es[|es| - 1]) {
        NetStepInv(m, es[|es| - 1]);
      }
    }
  }

  /** None of the counters underflows: a completion finds them positive. */
  lemma NoUnderflow(n: Net, e: Event)
    requires NetInv(n) && Homes(n) && Enabled(n, e)
    ensures e.Iod? && e.l.Done? ==> n.rw > 0 && n.ctl.iods[e.l.i].inflights > 0
                                    && n.ctxs[n.ctl.iods[e.l.i].ctx].inflight > 0
    ensures e.UnmapDone? ==> n.unmaps[e.u].left > 0 && (n.unmaps[e.u].batched ==> n.rw > 0)
  {
    if e.Iod? && e.l.Done? {
      var d := n.ctl.iods[e.l.i];
      I.IodAt(n.ctl, e.l.i);
      I.SumUpdate(n.ctl.iods, OutOf, e.l.i, d);
      I.SumUpdate(n.ctl.iods, OutOn(d.ctx), e.l.i, d);
      assert CtxOk(n, d.ctx);
    } else if e.UnmapDone? {
      assert UnmapOk(n.unmaps[e.u]);
      SumUUpdate(n.unmaps, Batched, e.u, n.unmaps[e.u]);
    }
  }

  /** No transfer of context x is outstanding and no unmap call on it is in progress. */
  ghost predicate Quiet(n: Net, x: nat) {
    && (forall i :: 0 <= i < |n.ctl.iods| && n.ctl.iods[i].ctx == x ==> n.ctl.iods[i].outstanding == 0)
    && (forall u :: 0 <= u < |n.unmaps| && n.unmaps[u].ctx == x ==> !n.unmaps[u].live)
  }

  lemma {:induction false} NoCalls(s: seq<Unmap>, x: nat)
    requires forall u :: 0 <= u < |s| && s[u].ctx == x ==> !s[u].live
    ensures SumU(s, CallOn(x)) == 0
  {
    if s != [] {
      NoCalls(s[..|s| - 1], x);
    }
  }

  /** `bic_inflight_dmas` tells it. */
  lemma QuietExact(n: Net, x: nat)
    requires NetInv(n) && x < |n.ctxs|
    ensures n.ctxs[x].inflight == 0 <==> Quiet(n, x)
  {
    assert CtxOk(n, x);
    if n.ctxs[x].inflight == 0 {
      forall i | 0 <= i < |n.ctl.iods| && n.ctl.iods[i].ctx == x ensures n.ctl.iods[i].outstanding == 0 {
        I.SumUpdate(n.ctl.iods, OutOn(x), i, n.ctl.iods[i]);
      }
      forall u | 0 <= u < |n.unmaps| && n.unmaps[u].ctx == x ensures !n.unmaps[u].live {
        SumUUpdate(n.unmaps, CallOn(x), u, n.unmaps[u]);
      }
    }
    if Quiet(n, x) {
      NothingOut(n.ctl.iods, OutOn(x));
      NoCalls(n.unmaps, x);
    }
  }

  /** `bio_blob_close` sends its message exactly when the blob is open and not closing yet, no transfer of the context
      is outstanding and no unmap call on it is in progress. */
  lemma CloseWhenIdle(n: Net, x: nat)
    requires NetInv(n) && x < |n.ctxs|
    ensures Step(n, Close(x)).ctxs[x].sent > n.ctxs[x].sent <==> Valid(n.ctxs[x]) && Quiet(n, x)
  {
    QuietExact(n, x);
  }

  /** In every reachable state: a transfer is handed over on a blob that is closed or closing only if a close message
      was sent after the test of `nvme_rw`. */
  lemma LateTransfer(n: Net, es: seq<Event>, m: Net, i: nat)
    requires I.Init(n.ctl) && n.rw == 0 && n.unmaps == [] && n.passed == map[] && Homes(n)
    requires forall x :: 0 <= x < |n.ctxs| ==> n.ctxs[x].inflight == 0
    requires m == After(n, es) && Enabled(m, Iod(P.IssueOne(i, false)))
    ensures m.ctl.iods[i].ctx < |m.ctxs|
    ensures !Valid(m.ctxs[m.ctl.iods[i].ctx]) ==> m.passed[i] < m.ctxs[m.ctl.iods[i].ctx].sent
  {
    Conservation(n, es);
  }

  /** And that can happen, since `drain_inflight_ios` may yield between the transfers of a region: after the test, a
      call of `bio_blob_close` leads to a transfer on a closing blob exactly if nothing else of the context is in
      flight. */
  lemma LateExact(n: Net, i: nat, x: nat)
    requires NetInv(n) && x < |n.ctxs| && i < |n.ctl.iods| && n.ctl.iods[i].pc == P.Issuing && n.ctl.iods[i].ctx == x
    requires Valid(n.ctxs[x])
    ensures var c := Step(Step(n, Check(i)), Close(x));
            Enabled(c, Iod(P.IssueOne(i, false))) && (!Valid(c.ctxs[x]) <==> Quiet(n, x))
  {
    QuietExact(n, x);
  }
}
