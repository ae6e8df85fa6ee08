/** What holds in every state of the protocol, and what that means: FIFO admission, no lost wake-up, exactly-once
    release, and in-flight conservation. */
module ProtocolInv {
  import opened BioTypes
  import opened Folding
  import opened SeqLib
  import opened Pool
  import opened Protocol

  // ---------------------------------------------------------------------------------------------
  // Counting
  // ---------------------------------------------------------------------------------------------

  ghost function Sum(s: seq<Iod>, f: Iod -> nat): nat {
    if s == [] then 0 else Sum(s[..|s| - 1], f) + f(s[|s| - 1])
  }

  lemma {:induction false} SumUpdate(s: seq<Iod>, f: Iod -> nat, i: nat, d: Iod)
    requires i < |s|
    ensures Sum(s[i := d], f) == Sum(s, f) - f(s[i]) + f(d)
    ensures Sum(s, f) >= f(s[i])
  {
    var n := |s| - 1;
    if i == n {
      assert s[i := d][..n] == s[..n];
    } else {
      SumUpdate(s[..n], f, i, d);
      assert s[i := d][..n] == s[..n][i := d];
    }
  }

  lemma {:induction false} SumSame(s: seq<Iod>, t: seq<Iod>, f: Iod -> nat)
    requires |s| == |t| && forall k :: 0 <= k < |s| ==> f(s[k]) == f(t[k])
    ensures Sum(s, f) == Sum(t, f)
  {
    if s != [] {
      SumSame(s[..|s| - 1], t[..|t| - 1], f);
    }
  }

  function ActOf(d: Iod): nat {
    if d.act then 1 else 0
  }

  // ---------------------------------------------------------------------------------------------
  // The invariant
  // ---------------------------------------------------------------------------------------------

  predicate Queued(d: Iod) {
    d.pc == FifoWait || d.pc == FifoWoken || d.pc == HeadWait || d.pc == HeadWoken
  }

  predicate IsHead(d: Iod) {
    d.pc == FifoWoken || d.pc == HeadWait || d.pc == HeadWoken
  }

  /** One descriptor.  `bd_inflights` is the number of outstanding transfers plus the bias while issuing; a descriptor
      in the FIFO has no buffer; a transfer is outstanding only while the buffer is held and counted; a posted buffer
      is held only as long as transfers are outstanding; the descriptor left the active ones as often as it joined
      them, except for the current time. */
  predicate IodOk(d: Iod) {
    && d.inflights == d.outstanding + (if d.pc == Issuing then 1 else 0)
    && (d.act ==> d.prep) && (d.outstanding > 0 ==> d.act)
    && (d.inFifo <==> Queued(d)) && (d.inFifo ==> !d.prep && !d.nonBlocking)
    && (d.pc == Issuing || d.pc == DmaWait ==>
          d.act && if d.kind.iod.Fetch? then !d.posted else d.posted && d.kind.iod.Update?)
    && (d.pc == DmaWait ==> !d.async)
    && (d.pc == Outside && d.outstanding > 0 ==> d.async && d.posted)
    && (d.pc == Outside && d.act && d.posted ==> d.outstanding > 0)
    && (d.async ==> d.kind.iod.Update?)
    && (d.evSet ==> d.inflights == 0) && (d.kind.iod.Update? && d.act && !d.posted ==> !d.evSet)
    && d.preps == d.drops + ActOf(d)
    && (d.pc == HeadWait || d.pc == HeadWoken <==> d.waits > 0)
  }

  ghost predicate Iods(c: Ctl) {
    forall i :: 0 <= i < |c.iods| ==> IodOk(c.iods[i])
  }

  function HeadSeq(c: Ctl): seq<nat> {
    if c.head.Some? then [c.head.value] else []
  }

  /** The FIFO: one head as soon as anyone is queued, all others wait on `bdb_fifo`, `bdb_queued_iods` counts them all,
      and they leave in the order in which they entered. */
  ghost predicate Fifo(c: Ctl) {
    && NoDup(c.fifo)
    && (forall k :: k in c.fifo ==> k < |c.iods|)
    && (forall i :: 0 <= i < |c.iods| ==> (c.iods[i].pc == FifoWait <==> i in c.fifo))
    && (forall i :: 0 <= i < |c.iods| ==> (IsHead(c.iods[i]) <==> c.head == Some(i)))
    && (c.head.Some? ==> c.head.value < |c.iods|)
    && (c.fifo != [] ==> c.head.Some?)
    && c.queued == |HeadSeq(c)| + |c.fifo|
    && c.ins == c.outs + HeadSeq(c) + c.fifo
  }

  /** `bdb_active_iods` counts the active descriptors. */
  ghost predicate Active(c: Ctl) {
    c.active == Sum(c.iods, ActOf)
  }

  /** A head that sleeps has an active descriptor (besides its own source) to wait for. */
  ghost predicate Awaited(c: Ctl) {
    forall i :: 0 <= i < |c.iods| && c.iods[i].pc == HeadWait ==> c.active > if c.iods[i].copyDst then 1 else 0
  }

  /** Every further wait of the head costs an active descriptor, unless a non-blocking one jumped the queue. */
  ghost predicate Retries(c: Ctl) {
    forall i :: 0 <= i < |c.iods| && !c.jumped ==> RetryOk(c.iods[i], c.active)
  }

  predicate RetryOk(d: Iod, active: int) {
    && (d.pc == HeadWait ==> d.waits - 1 + active <= d.first)
    && (d.pc == HeadWoken ==> d.waits + active <= d.first)
  }

  ghost predicate Parts(c: Ctl) {
    Iods(c) && Fifo(c) && Active(c) && Awaited(c) && Retries(c)
  }

  /** The same as `Parts`, folded. */
  ghost predicate CtlInv(c: Ctl) {
    forall x {:trigger Look(x)} :: Look(x) ==> Parts(c)
  }

  lemma Open(c: Ctl)
    requires CtlInv(c)
    ensures Parts(c)
  {
    assert Look(0);
  }

  lemma Close(c: Ctl)
    requires Parts(c)
    ensures CtlInv(c)
  {
  }

  lemma IodAt(c: Ctl, i: nat)
    requires CtlInv(c) && i < |c.iods|
    ensures IodOk(c.iods[i])
  {
    Open(c);
  }

  // ---------------------------------------------------------------------------------------------
  // Steps that change one descriptor and nothing else
  // ---------------------------------------------------------------------------------------------

  /** A change of descriptor i that concerns neither the FIFO nor the active count. */
  lemma SetInv(c: Ctl, i: nat, d: Iod)
    requires CtlInv(c) && i < |c.iods| && IodOk(d) && d.act == c.iods[i].act
    requires !Queued(d) && !Queued(c.iods[i])
    ensures CtlInv(Set(c, i, d))
  {
    Open(c);
    SumUpdate(c.iods, ActOf, i, d);
    SetFifo(c, i, d);
    Close(Set(c, i, d));
  }

  lemma SetFifo(c: Ctl, i: nat, d: Iod)
    requires Fifo(c) && i < |c.iods| && !Queued(d) && !Queued(c.iods[i])
    ensures Fifo(Set(c, i, d))
  {
    var q := Set(c, i, d);
    forall k | 0 <= k < |q.iods|
      ensures (q.iods[k].pc == FifoWait <==> k in q.fifo) && (IsHead(q.iods[k]) <==> q.head == Some(k))
    {
      assert c.iods[k].pc == FifoWait <==> k in c.fifo;
      assert IsHead(c.iods[k]) <==> c.head == Some(k);
    }
  }

  // ---------------------------------------------------------------------------------------------
  // Leaving the active descriptors
  // ---------------------------------------------------------------------------------------------

  predicate SameQueue(c: Ctl, q: Ctl) {
    && |q.iods| == |c.iods| && q.fifo == c.fifo && q.queued == c.queued && q.head == c.head
    && q.ins == c.ins && q.outs == c.outs && q.jumped == c.jumped
  }

  /** Descriptor i left the active ones and the head was woken. */
  ghost predicate Dropped(c: Ctl, q: Ctl, i: nat) {
    && i < |c.iods| && SameQueue(c, q) && q.active == c.active - 1
    && c.iods[i].act && !Queued(c.iods[i])
    && !q.iods[i].act && !Queued(q.iods[i]) && IodOk(q.iods[i])
    && (forall k :: 0 <= k < |c.iods| && k != i ==>
          q.iods[k] == if c.iods[k].pc == HeadWait then c.iods[k].(pc := HeadWoken) else c.iods[k])
  }

  /** What `Drop` leaves of descriptor d. */
  function Gone(d: Iod): Iod {
    d.(prep := false, act := false, drops := d.drops + 1)
  }

  lemma DropShape(c: Ctl, i: nat, d: Iod)
    requires i < |c.iods| && d.pc == Outside && d.act && c.iods[i].act && !Queued(c.iods[i]) && IodOk(Gone(d))
    ensures Dropped(c, Drop(Set(c, i, d), i), i)
  {
  }

  lemma DroppedFifo(c: Ctl, q: Ctl, i: nat)
    requires Fifo(c) && Dropped(c, q, i)
    ensures Fifo(q)
  {
    forall k | 0 <= k < |q.iods|
      ensures (q.iods[k].pc == FifoWait <==> k in q.fifo) && (IsHead(q.iods[k]) <==> q.head == Some(k))
    {
      assert c.iods[k].pc == FifoWait <==> k in c.fifo;
      assert IsHead(c.iods[k]) <==> c.head == Some(k);
    }
  }

  lemma DroppedActive(c: Ctl, q: Ctl, i: nat)
    requires Active(c) && Dropped(c, q, i)
    ensures Active(q) && c.active > 0
  {
    var mid := c.iods[i := q.iods[i]];
    SumUpdate(c.iods, ActOf, i, q.iods[i]);
    SumSame(mid, q.iods, ActOf);
  }

  lemma DroppedRest(c: Ctl, q: Ctl, i: nat)
    requires Iods(c) && Retries(c) && Dropped(c, q, i)
    ensures Iods(q) && Awaited(q) && Retries(q)
  {
    forall k | 0 <= k < |q.iods| ensures IodOk(q.iods[k]) && q.iods[k].pc != HeadWait
      && (!q.jumped ==> RetryOk(q.iods[k], q.active)) {
      assert IodOk(c.iods[k]);
    }
  }

  /** Leaving the active descriptors wakes the head; `d` is what the descriptor has become just before. */
  lemma DropInv(c: Ctl, i: nat, d: Iod)
    requires CtlInv(c) && i < |c.iods| && c.iods[i].act && !Queued(c.iods[i])
    requires d.pc == Outside && d.act && IodOk(Gone(d))
    ensures CtlInv(Drop(Set(c, i, d), i)) && c.active > 0
  {
    var q := Drop(Set(c, i, d), i);
    Open(c);
    DropShape(c, i, d);
    DroppedFifo(c, q, i);
    DroppedActive(c, q, i);
    DroppedRest(c, q, i);
    Close(q);
  }

  // ---------------------------------------------------------------------------------------------
  // Leaving the FIFO
  // ---------------------------------------------------------------------------------------------

  /** Descriptor i is about to map: it is the head of the FIFO and awake, or it need not queue. */
  predicate MayMap(c: Ctl, i: nat) {
    && i < |c.iods| && !c.iods[i].prep
    && (c.iods[i].pc == FifoWoken || c.iods[i].pc == HeadWoken
        || (c.iods[i].pc == Outside && (c.queued == 0 || c.iods[i].nonBlocking)))
  }

  function Left(d: Iod, prep: bool): Iod {
    d.(prep := prep, pc := Outside, waits := 0)
  }

  /** The next in line became head, if there is one. */
  ghost predicate Passed(c: Ctl, q: Ctl, i: nat, prep: bool) {
    && c.head == Some(i) && i < |c.iods| && |q.iods| == |c.iods| && q.active == c.active
    && q.ins == c.ins && q.outs == c.outs + [i] && q.queued == c.queued - 1
    && q.iods[i] == Left(c.iods[i], prep).(inFifo := false)
    && if c.fifo == [] then
         && q.head == None && q.fifo == [] && (forall k :: 0 <= k < |c.iods| && k != i ==> q.iods[k] == c.iods[k])
       else
         && q.head == Some(c.fifo[0]) && q.fifo == c.fifo[1..] && c.fifo[0] != i && c.fifo[0] < |c.iods|
         && q.iods[c.fifo[0]] == c.iods[c.fifo[0]].(pc := FifoWoken) && !q.jumped
         && (forall k :: 0 <= k < |c.iods| && k != i && k != c.fifo[0] ==> q.iods[k] == c.iods[k])
  }

  lemma HeadFacts(c: Ctl, i: nat)
    requires CtlInv(c) && i < |c.iods| && IsHead(c.iods[i])
    ensures c.head == Some(i) && c.iods[i].inFifo && c.queued == 1 + |c.fifo|
    ensures c.fifo != [] ==> c.fifo[0] != i && c.fifo[0] < |c.iods| && c.iods[c.fifo[0]].pc == FifoWait
  {
    Open(c);
    assert IodOk(c.iods[i]);
    if c.fifo != [] {
      assert c.fifo[0] in c.fifo;
    }
  }

  lemma OutShape(c: Ctl, i: nat, prep: bool)
    requires i < |c.iods| && c.head == Some(i) && c.iods[i].inFifo && c.queued == 1 + |c.fifo|
    requires c.fifo != [] ==> c.fifo[0] != i && c.fifo[0] < |c.iods|
    ensures Passed(c, FifoOut(Set(c, i, Left(c.iods[i], prep)), i), i, prep)
  {
  }

  lemma PassedFifo(c: Ctl, q: Ctl, i: nat, prep: bool)
    requires Fifo(c) && Passed(c, q, i, prep)
    ensures Fifo(q)
  {
    if c.fifo != [] {
      var n := c.fifo[0];
      assert c.fifo == [n] + c.fifo[1..];
      NoDupTail(c.fifo);
      forall k | 0 <= k < |q.iods|
        ensures (q.iods[k].pc == FifoWait <==> k in q.fifo) && (IsHead(q.iods[k]) <==> q.head == Some(k))
      {
        assert c.iods[k].pc == FifoWait <==> k in c.fifo;
        assert IsHead(c.iods[k]) <==> c.head == Some(k);
      }
    } else {
      forall k | 0 <= k < |q.iods|
        ensures (q.iods[k].pc == FifoWait <==> k in q.fifo) && (IsHead(q.iods[k]) <==> q.head == Some(k))
      {
        assert c.iods[k].pc == FifoWait <==> k in c.fifo;
        assert IsHead(c.iods[k]) <==> c.head == Some(k);
      }
    }
  }

  lemma PassedRest(c: Ctl, q: Ctl, i: nat, prep: bool)
    requires Iods(c) && Fifo(c) && Active(c) && Passed(c, q, i, prep)
    ensures Iods(q) && Active(q) && Awaited(q) && Retries(q)
  {
    SumSame(c.iods, q.iods, ActOf);
    forall k | 0 <= k < |q.iods| ensures IodOk(q.iods[k]) && !(q.iods[k].pc == HeadWait)
      && !(q.iods[k].pc == HeadWoken) {
      assert IodOk(c.iods[k]);
      assert IsHead(c.iods[k]) <==> c.head == Some(k);
    }
  }

  /** Nobody sleeps at the head whose retries the new active descriptor could spoil. */
  ghost predicate FreshHead(c: Ctl, jumped: bool) {
    c.head.Some? ==> jumped || (c.head.value < |c.iods| && c.iods[c.head.value].pc == FifoWoken)
  }

  /** Leaving the FIFO, or not having been in it. */
  lemma LeaveInv(c: Ctl, i: nat, prep: bool)
    requires CtlInv(c) && MayMap(c, i)
    ensures var q := FifoOut(Set(c, i, Left(c.iods[i], prep)), i);
            && CtlInv(q) && |q.iods| == |c.iods| && q.iods[i] == Left(c.iods[i], prep).(inFifo := false)
            && FreshHead(q, c.iods[i].nonBlocking)
  {
    IodAt(c, i);
    var q := FifoOut(Set(c, i, Left(c.iods[i], prep)), i);
    if c.iods[i].pc == Outside {
      SetInv(c, i, Left(c.iods[i], prep));
      if c.queued == 0 {
        NoHead(c);
      }
    } else {
      HeadFacts(c, i);
      OutShape(c, i, prep);
      PassInv(c, q, i, prep);
    }
  }

  lemma NoHead(c: Ctl)
    requires CtlInv(c) && c.queued == 0
    ensures c.head.None?
  {
    Open(c);
  }

  lemma PassInv(c: Ctl, q: Ctl, i: nat, prep: bool)
    requires CtlInv(c) && Passed(c, q, i, prep)
    ensures CtlInv(q)
  {
    Open(c);
    PassedFifo(c, q, i, prep);
    PassedRest(c, q, i, prep);
    Close(q);
  }

  // ---------------------------------------------------------------------------------------------
  // Waiting in the FIFO
  // ---------------------------------------------------------------------------------------------

  /** `iod_fifo_wait`: a descriptor that was not queued finds the FIFO empty. */
  lemma WaitInv(c: Ctl, i: nat)
    requires CtlInv(c) && MayMap(c, i) && !c.iods[i].nonBlocking && ShouldRetry(c, c.iods[i])
    ensures CtlInv(Wait(c, i)) && (!c.iods[i].inFifo ==> c.queued == 0)
  {
    var q := Wait(c, i);
    IodAt(c, i);
    Open(c);
    SumUpdate(c.iods, ActOf, i, q.iods[i]);
    WaitFifo(c, i);
    WaitRest(c, i);
    Close(q);
  }

  lemma WaitRest(c: Ctl, i: nat)
    requires Iods(c) && Fifo(c) && Retries(c) && Active(c) && Awaited(c)
    requires MayMap(c, i) && !c.iods[i].nonBlocking && ShouldRetry(c, c.iods[i])
    ensures Iods(Wait(c, i)) && Awaited(Wait(c, i)) && Retries(Wait(c, i))
  {
    var d := c.iods[i];
    var q := Wait(c, i);
    assert IodOk(d);
    forall k | 0 <= k < |q.iods| ensures IodOk(q.iods[k]) && (!q.jumped ==> RetryOk(q.iods[k], q.active)) {
      assert IodOk(c.iods[k]);
      assert IsHead(c.iods[k]) <==> c.head == Some(k);
    }
  }

  lemma WaitFifo(c: Ctl, i: nat)
    requires Iods(c) && Fifo(c) && MayMap(c, i) && !c.iods[i].nonBlocking
    ensures Fifo(Wait(c, i))
  {
    var q := Wait(c, i);
    assert IodOk(c.iods[i]);
    forall k | 0 <= k < |q.iods|
      ensures (q.iods[k].pc == FifoWait <==> k in q.fifo) && (IsHead(q.iods[k]) <==> q.head == Some(k))
    {
      assert c.iods[k].pc == FifoWait <==> k in c.fifo;
      assert IsHead(c.iods[k]) <==> c.head == Some(k);
    }
  }

  /** `iod_fifo_in`: a blocking descriptor queues up behind the others. */
  lemma QueueInv(c: Ctl, i: nat, kind: Kind, dst: bool)
    requires CtlInv(c) && i < |c.iods| && c.iods[i].pc == Outside && !c.iods[i].prep && kind.iod == c.iods[i].kind.iod
    requires c.queued != 0
    ensures CtlInv(Start(c, i, kind, false, dst))
  {
    var q := Start(c, i, kind, false, dst);
    IodAt(c, i);
    Open(c);
    SumUpdate(c.iods, ActOf, i, q.iods[i]);
    QueueFifo(c, i, kind, dst);
    assert IodOk(q.iods[i]);
    Close(q);
  }

  lemma QueueFifo(c: Ctl, i: nat, kind: Kind, dst: bool)
    requires Fifo(c) && i < |c.iods| && c.iods[i].pc == Outside && c.queued != 0
    ensures Fifo(Start(c, i, kind, false, dst))
  {
    var q := Start(c, i, kind, false, dst);
    assert i !in c.fifo;
    NoDupAppend(c.fifo, i);
    forall k | 0 <= k < |q.iods|
      ensures (q.iods[k].pc == FifoWait <==> k in q.fifo) && (IsHead(q.iods[k]) <==> q.head == Some(k))
    {
      assert c.iods[k].pc == FifoWait <==> k in c.fifo;
      assert IsHead(c.iods[k]) <==> c.head == Some(k);
    }
  }

  // ---------------------------------------------------------------------------------------------
  // The attempt to map
  // ---------------------------------------------------------------------------------------------

  lemma JoinFifo(c: Ctl, i: nat)
    requires Fifo(c) && i < |c.iods| && c.iods[i].pc == Outside
    ensures Fifo(Join(c, i))
  {
    var q := Join(c, i);
    forall k | 0 <= k < |q.iods|
      ensures (q.iods[k].pc == FifoWait <==> k in q.fifo) && (IsHead(q.iods[k]) <==> q.head == Some(k))
    {
      assert c.iods[k].pc == FifoWait <==> k in c.fifo;
      assert IsHead(c.iods[k]) <==> c.head == Some(k);
    }
  }

  lemma JoinRest(c: Ctl, i: nat)
    requires Iods(c) && Fifo(c) && Active(c) && Awaited(c) && Retries(c)
    requires i < |c.iods| && c.iods[i].pc == Outside && c.iods[i].prep && !c.iods[i].act
    requires FreshHead(c, c.jumped || c.iods[i].nonBlocking)
    ensures Iods(Join(c, i)) && Active(Join(c, i)) && Awaited(Join(c, i)) && Retries(Join(c, i))
  {
    var q := Join(c, i);
    assert IodOk(c.iods[i]);
    SumUpdate(c.iods, ActOf, i, q.iods[i]);
    forall k | 0 <= k < |q.iods| && !q.jumped ensures RetryOk(q.iods[k], q.active) {
      assert IsHead(c.iods[k]) <==> c.head == Some(k);
    }
  }

  lemma JoinInv(c: Ctl, i: nat)
    requires CtlInv(c) && i < |c.iods| && c.iods[i].pc == Outside && c.iods[i].prep && !c.iods[i].act
    requires FreshHead(c, c.jumped || c.iods[i].nonBlocking)
    ensures CtlInv(Join(c, i))
  {
    Open(c);
    JoinFifo(c, i);
    JoinRest(c, i);
    Close(Join(c, i));
  }

  /** A prepared descriptor becomes active. */
  lemma ActivateInv(c: Ctl, i: nat, evOk: bool)
    requires CtlInv(c) && i < |c.iods| && c.iods[i].pc == Outside && c.iods[i].prep && !c.iods[i].act
    requires FreshHead(c, c.jumped || c.iods[i].nonBlocking)
    ensures CtlInv(Activate(c, i, evOk))
  {
    IodAt(c, i);
    var c1 := Join(c, i);
    JoinInv(c, i);
    IodAt(c1, i);
    var d1 := c1.iods[i];
    if !c.iods[i].kind.iod.GetBuf? && !evOk {
      assert Set(c1, i, d1) == c1;
      DropInv(c1, i, d1);
    } else if c.iods[i].kind.iod.Fetch? {
      SetInv(c1, i, d1.(pc := Issuing, inflights := 1));
    }
  }

  /** `iod_map_iovs` and the rest of `iod_prep_internal`, whatever the outcome of the mapping. */
  lemma TriedInv(c: Ctl, i: nat, out: Outcome)
    requires CtlInv(c) && MayMap(c, i)
    ensures CtlInv(Tried(c, i, out))
  {
    IodAt(c, i);
    if out.Failed? && out.retry && ShouldRetry(c, c.iods[i]) && !c.iods[i].nonBlocking {
      WaitInv(c, i);
    } else {
      LeaveInv(c, i, out.Mapped?);
      if out.Mapped? {
        var c1 := FifoOut(Set(c, i, Left(c.iods[i], true)), i);
        IodAt(c1, i);
        if out.regions {
          ActivateInv(c1, i, out.evOk);
        } else {
          SetInv(c1, i, c1.iods[i].(posted := false));
        }
      } else {
        assert Left(c.iods[i], false) == c.iods[i].(pc := Outside, waits := 0);
      }
    }
  }

  lemma PrepInv(c: Ctl, i: nat, kind: Kind, nb: bool, dst: bool, out: Outcome)
    requires CtlInv(c) && Enabled(c, Prep(i, kind, nb, dst, out))
    ensures CtlInv(Step(c, Prep(i, kind, nb, dst, out)))
  {
    IodAt(c, i);
    if c.queued == 0 || nb {
      var d := c.iods[i].(kind := kind, nonBlocking := nb, copyDst := dst);
      SetInv(c, i, d);
      TriedInv(Set(c, i, d), i, out);
    } else {
      QueueInv(c, i, kind, dst);
    }
  }

  // ---------------------------------------------------------------------------------------------
  // Posting and transfers
  // ---------------------------------------------------------------------------------------------

  lemma PostInv(c: Ctl, i: nat, err: bool, async: bool)
    requires CtlInv(c) && Enabled(c, PostIod(i, err, async))
    ensures CtlInv(Post(c, i, err, async))
  {
    IodAt(c, i);
    var d := c.iods[i].(inflights := 0, failed := err, posted := true);
    if !d.prep {
    } else if !d.act {
      SetInv(c, i, d.(prep := false));
    } else if !err && d.kind.iod.Update? {
      SetInv(c, i, d.(async := d.async || async, inflights := 1, pc := Issuing));
    } else {
      DropInv(c, i, d);
    }
  }

  lemma IssueInv(c: Ctl, i: nat, bad: bool)
    requires CtlInv(c) && Enabled(c, IssueOne(i, bad))
    ensures CtlInv(Step(c, IssueOne(i, bad)))
  {
    IodAt(c, i);
    SetInv(c, i, Issued(c.iods[i], bad));
  }

  lemma EndIssueInv(c: Ctl, i: nat)
    requires CtlInv(c) && Enabled(c, EndRw(i))
    ensures CtlInv(EndIssue(c, i))
  {
    var d := c.iods[i];
    IodAt(c, i);
    if !d.async {
      SetInv(c, i, Unbiased(d, DmaWait));
    } else if d.inflights == 1 && d.prep {
      DropInv(c, i, Unbiased(d, Outside));
    } else {
      SetInv(c, i, Unbiased(d, Outside));
    }
  }

  lemma AfterDmaInv(c: Ctl, i: nat)
    requires CtlInv(c) && Enabled(c, Resume(i))
    ensures CtlInv(AfterDma(c, i))
  {
    var d := c.iods[i];
    IodAt(c, i);
    if d.kind.iod.Fetch? && !d.failed {
      SetInv(c, i, d.(pc := Outside));
    } else {
      DropInv(c, i, d.(pc := Outside));
    }
  }

  lemma CompleteInv(c: Ctl, i: nat, err: bool)
    requires CtlInv(c) && Enabled(c, Done(i, err))
    ensures CtlInv(Complete(c, i, err))
  {
    var d1 := Completed(c.iods[i], err);
    IodAt(c, i);
    if d1.inflights == 0 && d1.async && d1.prep {
      DropInv(c, i, d1);
    } else {
      SetInv(c, i, d1);
    }
  }

  /** Every step keeps the invariant. */
  lemma StepInv(c: Ctl, l: Label)
    requires CtlInv(c) && Enabled(c, l)
    ensures CtlInv(Step(c, l))
  {
    match l
    case Prep(i, kind, nb, dst, out) => PrepInv(c, i, kind, nb, dst, out);
    case Again(i, out) => IodAt(c, i); TriedInv(c, i, out);
    case PostIod(i, err, async) => PostInv(c, i, err, async);
    case IssueOne(i, bad) => IssueInv(c, i, bad);
    case EndRw(i) => EndIssueInv(c, i);
    case Resume(i) => AfterDmaInv(c, i);
    case Done(i, err) => CompleteInv(c, i, err);
  }

  // ---------------------------------------------------------------------------------------------
  // Runs
  // ---------------------------------------------------------------------------------------------

  /** At the start no descriptor is in a call and none has a buffer. */
  ghost predicate Init(c: Ctl) {
    && c.fifo == [] && c.queued == 0 && c.active == 0 && c.head == None && c.ins == [] && c.outs == []
    && forall i :: 0 <= i < |c.iods| ==>
         var d := c.iods[i];
         && d.pc == Outside && !d.inFifo && !d.prep && !d.async && !d.evSet && d.inflights == 0 && d.outstanding == 0
         && !d.act && d.preps == 0 && d.drops == 0 && d.waits == 0
  }

  /** The state after a run. */
  ghost function After(c: Ctl, ls: seq<Label>): Ctl {
    if ls == [] then c
    else
      var q := After(c, ls[..|ls| - 1]);
      if ls[|ls| - 1].i < |q.iods| then Step(q, ls[|ls| - 1]) else q
  }

  /** Each step of the run can be taken. */
  ghost predicate Legal(c: Ctl, ls: seq<Label>) {
    ls == [] || (Legal(c, ls[..|ls| - 1]) && Enabled(After(c, ls[..|ls| - 1]), ls[|ls| - 1]))
  }

  lemma {:induction false} NoneActive(s: seq<Iod>)
    requires forall i :: 0 <= i < |s| ==> !s[i].act
    ensures Sum(s, ActOf) == 0
  {
    if s != [] {
      NoneActive(s[..|s| - 1]);
    }
  }

  /** The invariant holds in every reachable state. */
  lemma {:induction false} RunInv(c: Ctl, ls: seq<Label>)
    requires Init(c) && Legal(c, ls)
    ensures CtlInv(After(c, ls))
    decreases |ls|
  {
    if ls == [] {
      NoneActive(c.iods);
      assert Parts(c);
      Close(c);
    } else {
      RunInv(c, ls[..|ls| - 1]);
      StepInv(After(c, ls[..|ls| - 1]), ls[|ls| - 1]);
    }
  }

  // ---------------------------------------------------------------------------------------------
  // What the invariant means
  // ---------------------------------------------------------------------------------------------

  /** Descriptors with `bd_in_fifo`. */
  function FifoOf(d: Iod): nat {
    if d.inFifo then 1 else 0
  }

  /** Counting the members of a list of distinct descriptors by a flag. */
  lemma {:induction false} CountMembers(s: seq<Iod>, xs: seq<nat>)
    requires NoDup(xs) && (forall k :: k in xs ==> k < |s|)
    requires forall i :: 0 <= i < |s| ==> (s[i].inFifo <==> i in xs)
    ensures Sum(s, FifoOf) == |xs|
    decreases |s|
  {
    if s == [] {
      if xs != [] {
        SomeMember(xs);
      }
    } else {
      var n := |s| - 1;
      if n in xs {
        CountMembers(s[..n], Remove<nat>(xs, n));
      } else {
        CountMembers(s[..n], xs);
      }
    }
  }

  /** FIFO admission: `bdb_queued_iods` counts the descriptors in the FIFO; as soon as there is one, exactly one of
      them is the head and all others wait on `bdb_fifo`; descriptors left in the order in which they queued. */
  lemma FifoAdmission(c: Ctl)
    requires CtlInv(c)
    ensures c.queued == Sum(c.iods, FifoOf)
    ensures c.queued > 0 ==> c.head.Some? && c.head.value < |c.iods|
                             && forall i :: 0 <= i < |c.iods| && c.iods[i].inFifo && Some(i) != c.head ==>
                                  c.iods[i].pc == FifoWait
    ensures c.head.Some? ==> c.head.value < |c.iods| && c.iods[c.head.value].inFifo
                             && c.iods[c.head.value].pc != FifoWait
    ensures c.outs <= c.ins && c.ins[|c.outs|..] == HeadSeq(c) + c.fifo
  {
    Open(c);
    var xs := HeadSeq(c) + c.fifo;
    forall i | 0 <= i < |c.iods| ensures c.iods[i].inFifo <==> i in xs {
      assert IodOk(c.iods[i]);
      assert IsHead(c.iods[i]) <==> c.head == Some(i);
      assert c.iods[i].pc == FifoWait <==> i in c.fifo;
    }
    assert NoDup(xs);
    CountMembers(c.iods, xs);
    assert c.ins == c.outs + xs;
  }

  /** No lost wake-up: as long as anyone is queued, the head can run, or an active descriptor will wake it. */
  lemma NoLostWakeup(c: Ctl)
    requires CtlInv(c) && c.queued > 0
    ensures c.head.Some? && c.head.value < |c.iods|
    ensures var h := c.iods[c.head.value];
            h.pc == FifoWoken || h.pc == HeadWoken || (h.pc == HeadWait && c.active > if h.copyDst then 1 else 0)
  {
    Open(c);
  }

  /** An active descriptor exists, and it holds a buffer. */
  lemma {:induction false} SomeActive(s: seq<Iod>) returns (i: nat)
    requires Sum(s, ActOf) > 0
    ensures i < |s| && s[i].act
  {
    var n := |s| - 1;
    if s[n].act {
      i := n;
    } else {
      i := SomeActive(s[..n]);
    }
  }

  /** So no state has waiters but neither a head that can run nor an active descriptor. */
  lemma NeverStuck(c: Ctl) returns (i: nat)
    requires CtlInv(c) && c.queued > 0
    ensures i < |c.iods| && (Enabled(c, Label.Again(i, Failed(true))) || (c.iods[i].act && c.iods[i].prep))
  {
    NoLostWakeup(c);
    var h := c.head.value;
    Open(c);
    if c.iods[h].pc == HeadWait {
      i := SomeActive(c.iods);
      assert IodOk(c.iods[i]);
    } else {
      i := h;
    }
  }

  /** The head waits at most as often as there were active descriptors when it first waited, if no non-blocking
      descriptor jumped the queue meanwhile. */
  lemma RetryBound(c: Ctl, i: nat)
    requires CtlInv(c) && i < |c.iods| && !c.jumped && (c.iods[i].pc == HeadWait || c.iods[i].pc == HeadWoken)
    ensures c.iods[i].waits <= c.iods[i].first
  {
    Open(c);
    assert RetryOk(c.iods[i], c.active);
    assert c.iods[i].pc == HeadWait ==> c.active > 0;
  }

  /** Exactly-once release: the descriptor has left the active ones once per successful preparation, but for the buffer
      it still holds; it never gave up a buffer with a transfer outstanding; after a post only outstanding transfers of
      an asynchronous one keep it. */
  lemma ExactlyOnce(c: Ctl, i: nat)
    requires CtlInv(c) && i < |c.iods|
    ensures var d := c.iods[i];
            && d.preps == d.drops + (if d.act then 1 else 0)
            && (d.outstanding > 0 ==> d.act && d.prep)
            && (d.pc == Outside && d.posted && d.act ==> d.async && d.outstanding > 0)
            && d.inflights == d.outstanding + (if d.pc == Issuing then 1 else 0)
  {
    IodAt(c, i);
  }

  /** A descriptor that waits for its transfers is woken when the last one is done, and not before. */
  lemma DmaWaitWakes(c: Ctl, i: nat)
    requires CtlInv(c) && i < |c.iods| && c.iods[i].pc == DmaWait
    ensures Enabled(c, Resume(i)) <==> c.iods[i].outstanding == 0
  {
    IodAt(c, i);
  }

  // ---------------------------------------------------------------------------------------------
  // What a step leaves alone
  // ---------------------------------------------------------------------------------------------

  /** The same but for the place where it is. */
  predicate Alike(d: Iod, e: Iod) {
    && e.ctx == d.ctx && e.kind == d.kind && e.prep == d.prep && e.act == d.act && e.outstanding == d.outstanding
    && e.inFifo == d.inFifo && e.inflights == d.inflights && e.posted == d.posted && e.async == d.async
    && e.preps == d.preps && e.drops == d.drops
    && e.failed == d.failed && (e.pc == d.pc || Queued(e))
  }

  /** What giving its buffer back leaves of a descriptor. */
  lemma DropSelf(c: Ctl, i: nat, d: Iod)
    requires i < |c.iods|
    ensures var e := Drop(Set(c, i, d), i).iods[i];
            e.ctx == d.ctx && e.kind == d.kind && e.outstanding == d.outstanding && e.failed == d.failed && !e.prep
              && !e.act
    ensures Set(c, i, d).iods[i] == d
  {
    assert Set(c, i, d).iods[i] == d;
  }

  /** What leaving the FIFO leaves of a descriptor. */
  lemma OutSelf(c: Ctl, i: nat, d: Iod)
    requires i < |c.iods|
    ensures var e := FifoOut(Set(c, i, d), i).iods[i];
            && e.ctx == d.ctx && e.kind == d.kind && e.outstanding == d.outstanding && e.prep == d.prep
            && e.act == d.act
            && (e.pc == d.pc || e.pc == FifoWoken)
  {
    assert Set(c, i, d).iods[i] == d;
  }

  /** A step of one descriptor changes only where the others are. */
  predicate OnlyPc(c: Ctl, q: Ctl, k: nat) {
    |q.iods| == |c.iods| && k < |c.iods| && Alike(c.iods[k], q.iods[k])
  }

  lemma FifoOutOthers(c: Ctl, i: nat, d: Iod, k: nat)
    requires i < |c.iods| && k < |c.iods| && k != i
    ensures OnlyPc(c, FifoOut(Set(c, i, d), i), k)
  {
  }

  lemma DropOthers(c: Ctl, i: nat, d: Iod, k: nat)
    requires i < |c.iods| && k < |c.iods| && k != i
    ensures OnlyPc(c, Drop(Set(c, i, d), i), k) && OnlyPc(c, Set(c, i, d), k)
  {
    var c1 := Set(c, i, d);
    assert c1.iods[k] == c.iods[k];
    var c2 := Set(c1, i, Gone(d));
    assert c2.iods[k] == c.iods[k];
    assert Drop(c1, i).iods == WakeAll(c2.iods);
  }

  lemma ActivateOthers(c: Ctl, i: nat, evOk: bool, k: nat)
    requires i < |c.iods| && k < |c.iods| && k != i
    ensures OnlyPc(c, Activate(c, i, evOk), k)
  {
    var c1 := Join(c, i);
    assert OnlyPc(c, c1, k);
    assert Set(c1, i, c1.iods[i]) == c1;
    DropOthers(c1, i, c1.iods[i], k);
  }

  lemma TriedOthers(c: Ctl, i: nat, out: Outcome, k: nat)
    requires i < |c.iods| && k < |c.iods| && k != i
    ensures OnlyPc(c, Tried(c, i, out), k)
  {
    match out
    case Mapped(regions, evOk) =>
      var d := c.iods[i].(prep := true, pc := Outside, waits := 0);
      FifoOutOthers(c, i, d, k);
      ActivateOthers(FifoOut(Set(c, i, d), i), i, evOk, k);
    case Failed(retry) =>
      FifoOutOthers(c, i, c.iods[i].(pc := Outside, waits := 0), k);
  }

  lemma PostOthers(c: Ctl, i: nat, err: bool, async: bool, k: nat)
    requires i < |c.iods| && k < |c.iods| && k != i
    ensures OnlyPc(c, Post(c, i, err, async), k)
  {
    DropOthers(c, i, c.iods[i].(inflights := 0, failed := err, posted := true), k);
  }

  lemma EndIssueOthers(c: Ctl, i: nat, k: nat)
    requires i < |c.iods| && k < |c.iods| && k != i
    ensures OnlyPc(c, EndIssue(c, i), k)
  {
    DropOthers(c, i, Unbiased(c.iods[i], Outside), k);
  }

  lemma AfterDmaOthers(c: Ctl, i: nat, k: nat)
    requires i < |c.iods| && k < |c.iods| && k != i
    ensures OnlyPc(c, AfterDma(c, i), k)
  {
    DropOthers(c, i, c.iods[i].(pc := Outside), k);
  }

  lemma CompleteOthers(c: Ctl, i: nat, err: bool, k: nat)
    requires i < |c.iods| && k < |c.iods| && k != i
    ensures OnlyPc(c, Complete(c, i, err), k)
  {
    DropOthers(c, i, Completed(c.iods[i], err), k);
  }

  lemma PrepOthers(c: Ctl, i: nat, kind: Kind, nb: bool, dst: bool, out: Outcome, k: nat)
    requires i < |c.iods| && k < |c.iods| && k != i
    ensures OnlyPc(c, Step(c, Prep(i, kind, nb, dst, out)), k)
  {
    var c1 := Start(c, i, kind, nb, dst);
    assert OnlyPc(c, c1, k);
    TriedOthers(c1, i, out, k);
  }

  lemma OthersKept(c: Ctl, l: Label, k: nat)
    requires l.i < |c.iods| && k < |c.iods| && k != l.i
    ensures OnlyPc(c, Step(c, l), k)
  {
    match l
    case Prep(i, kind, nb, dst, out) => PrepOthers(c, i, kind, nb, dst, out, k);
    case Again(i, out) => TriedOthers(c, i, out, k);
    case PostIod(i, err, async) => PostOthers(c, i, err, async, k);
    case IssueOne(i, bad) =>
    case EndRw(i) => EndIssueOthers(c, i, k);
    case Resume(i) => AfterDmaOthers(c, i, k);
    case Done(i, err) => CompleteOthers(c, i, err, k);
  }

  /** A step that gives a buffer back does so with no transfer of the descriptor outstanding. */
  lemma ReleaseWhenDone(c: Ctl, l: Label, i: nat)
    requires CtlInv(c) && Enabled(c, l) && i < |c.iods| && i < |Step(c, l).iods|
    requires c.iods[i].act && !Step(c, l).iods[i].act
    ensures l.i == i && Step(c, l).iods[i].outstanding == 0
  {
    StepInv(c, l);
    IodAt(Step(c, l), i);
    if l.i != i {
      OthersKept(c, l, i);
    }
  }

  // ---------------------------------------------------------------------------------------------
  // Assertions
  // ---------------------------------------------------------------------------------------------

  /** The assertions around an attempt to map: in `iod_fifo_out`, `iod_should_retry` and `iod_fifo_wait`. */
  predicate TryAsserts(c: Ctl, i: nat, out: Outcome)
    requires i < |c.iods|
  {
    var d := c.iods[i];
    && (d.inFifo ==> c.queued > 0)
    && (out == Failed(true) && d.copyDst ==> c.active >= 1)
    && (out == Failed(true) && ShouldRetry(c, d) && !d.nonBlocking && !d.inFifo ==> c.queued == 0)
  }

  /** The assertions that a step runs into: besides the above, in `rw_completion`, `dma_rw` and `dma_drop_iod`. */
  predicate Asserts(c: Ctl, l: Label)
    requires l.i < |c.iods|
  {
    var d := c.iods[l.i];
    match l
    case Prep(i, kind, nb, dst, out) =>
      var c1 := Start(c, i, kind, nb, dst);
      c1.iods[i].pc == FifoWait || TryAsserts(c1, i, out)
    case Again(i, out) => TryAsserts(c, i, out)
    case IssueOne(i, bad) => true
    case EndRw(i) => d.inflights > 0 && (d.act ==> c.active > 0)
    case Done(i, err) => d.inflights > 0 && (d.act ==> c.active > 0)
    case _ => d.act ==> c.active > 0
  }

  /** The step fails the assertion of `iod_should_retry` on copy destinations. */
  predicate Starved(c: Ctl, l: Label)
    requires l.i < |c.iods|
  {
    match l
    case Prep(_, _, nb, dst, out) => dst && out == Failed(true) && c.active == 0 && (c.queued == 0 || nb)
    case Again(i, out) => c.iods[i].copyDst && out == Failed(true) && c.active == 0
    case _ => false
  }

  lemma OnlyTryStarved(c: Ctl, i: nat, out: Outcome)
    requires CtlInv(c) && MayMap(c, i)
    ensures TryAsserts(c, i, out) <==> !(c.iods[i].copyDst && out == Failed(true) && c.active == 0)
  {
    IodAt(c, i);
    if IsHead(c.iods[i]) {
      HeadFacts(c, i);
    }
    ActiveNat(c, i);
  }

  lemma ActiveNat(c: Ctl, i: nat)
    requires CtlInv(c) && i < |c.iods|
    ensures c.active >= 0 && (c.iods[i].act ==> c.active > 0)
  {
    Open(c);
    SumUpdate(c.iods, ActOf, i, c.iods[i]);
  }

  /** No assertion of the protocol fails but the one on copy destinations.  Starvation.dfy says when that one does. */
  lemma OnlyStarved(c: Ctl, l: Label)
    requires CtlInv(c) && Enabled(c, l)
    ensures Asserts(c, l) <==> !Starved(c, l)
  {
    IodAt(c, l.i);
    ActiveNat(c, l.i);
    match l
    case Prep(i, kind, nb, dst, out) =>
      if c.queued == 0 || nb {
        var d := c.iods[i].(kind := kind, nonBlocking := nb, copyDst := dst);
        SetInv(c, i, d);
        OnlyTryStarved(Set(c, i, d), i, out);
      }
    case Again(i, out) => OnlyTryStarved(c, i, out);
    case _ =>
  }
}
