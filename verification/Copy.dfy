/** Copying between a descriptor's extents and the caller's scatter/gather lists (`bio_iod_copy`, `iterate_biov`,
    `copy_one`). */
module Copy {
  import opened BioTypes
  import opened Folding
  import opened Pool
  import opened Transfer

  /** `d_iov_t`: `data` is the memory at `iov_buf` (its length is `iov_buf_len`), `nil` says `iov_buf` is NULL. */
  datatype Iov = Iov(data: seq<Byte>, nil: bool, len: nat)

  /** `d_sg_list_t` */
  datatype Sgl = Sgl(iovs: seq<Iov>, nrOut: nat)

  /** The request part of a mapped `struct bio_iov`: its size, and its buffer unless it is a hole. */
  datatype Bio = Bio(size: nat, buf: Option<seq<Byte>>)

  /** 0, -DER_INVAL, -DER_REC2BIG */
  datatype CopyRc = Done | Invalid | TooBig

  // ---------------------------------------------------------------------------------------------
  // The two byte streams
  // ---------------------------------------------------------------------------------------------

  /** Bytes of an iov that take part: all of its buffer in a fetch, the filled part in an update. */
  function Cap(fetch: bool, v: Iov): nat {
    if fetch then |v.data| else v.len
  }

  /** In an update the filled part of an iov lies in its buffer; a fetch does not look at it. */
  predicate IovOk(fetch: bool, v: Iov) {
    !fetch ==> v.len <= |v.data|
  }

  /** Bytes in the iovs before the i-th. */
  function Off(fetch: bool, iovs: seq<Iov>, i: nat): nat
    requires i <= |iovs|
  {
    if i == 0 then 0 else Off(fetch, iovs, i - 1) + Cap(fetch, iovs[i - 1])
  }

  /** The bytes of an iov that take part. */
  function Win(fetch: bool, v: Iov): seq<Byte> {
    if !fetch && v.len <= |v.data| then v.data[..v.len] else v.data
  }

  /** The concatenated iovs. */
  function Flat(fetch: bool, iovs: seq<Iov>): seq<Byte> {
    if iovs == [] then [] else Flat(fetch, iovs[..|iovs| - 1]) + Win(fetch, iovs[|iovs| - 1])
  }

  /** Total size of the extents. */
  function Total(bios: seq<Bio>): nat {
    if bios == [] then 0 else Total(bios[..|bios| - 1]) + bios[|bios| - 1].size
  }

  predicate BioOk(fetch: bool, b: Bio) {
    && (b.buf.Some? ==> |b.buf.value| == b.size)
    && (!fetch && b.size > 0 ==> b.buf.Some?)
  }

  /** The concatenated extents; a hole shows what was in the iovs before. */
  function Stream(bios: seq<Bio>, was: seq<Byte>): seq<Byte> {
    if bios == [] then []
    else
      var pre := Stream(bios[..|bios| - 1], was);
      var b := bios[|bios| - 1];
      pre + match b.buf
            case Some(bytes) => bytes
            case None => if |pre| + b.size <= |was| then was[|pre|..|pre| + b.size] else []
  }

  lemma {:induction false} OffMono(fetch: bool, iovs: seq<Iov>, i: nat, j: nat)
    requires i <= j <= |iovs|
    ensures Off(fetch, iovs, i) <= Off(fetch, iovs, j)
  {
    if i < j {
      OffMono(fetch, iovs, i, j - 1);
    }
  }

  lemma {:induction false} OffTake(fetch: bool, iovs: seq<Iov>, n: nat, i: nat)
    requires i <= n <= |iovs|
    ensures Off(fetch, iovs[..n], i) == Off(fetch, iovs, i)
  {
    if i > 0 {
      OffTake(fetch, iovs, n, i - 1);
    }
  }

  lemma {:induction false} FlatLen(fetch: bool, iovs: seq<Iov>)
    requires forall i :: 0 <= i < |iovs| ==> IovOk(fetch, iovs[i])
    ensures |Flat(fetch, iovs)| == Off(fetch, iovs, |iovs|)
  {
    if iovs != [] {
      FlatLen(fetch, iovs[..|iovs| - 1]);
      OffTake(fetch, iovs, |iovs| - 1, |iovs| - 1);
    }
  }

  lemma {:induction false} OffSame(fetch: bool, iovs: seq<Iov>, jovs: seq<Iov>, i: nat)
    requires i <= |iovs| == |jovs| && forall k :: 0 <= k < i ==> Cap(fetch, iovs[k]) == Cap(fetch, jovs[k])
    ensures Off(fetch, iovs, i) == Off(fetch, jovs, i)
  {
    if i > 0 {
      OffSame(fetch, iovs, jovs, i - 1);
    }
  }

  // ---------------------------------------------------------------------------------------------
  // The cursor
  // ---------------------------------------------------------------------------------------------

  /** The iovs that hold the first `t` bytes are non-empty and have a buffer, and they exist. */
  ghost predicate Room(fetch: bool, iovs: seq<Iov>, t: nat) {
    t <= Off(fetch, iovs, |iovs|) && !Bad(fetch, iovs, t)
  }

  /** An iov that the first `t` bytes reach is empty or has no buffer. */
  ghost predicate Bad(fetch: bool, iovs: seq<Iov>, t: nat) {
    exists i :: 0 <= i < |iovs| && Off(fetch, iovs, i) < t && (Cap(fetch, iovs[i]) == 0 || iovs[i].nil)
  }

  /** Number of iovs populated at cursor (idx, off). */
  function Touched(idx: nat, off: nat): nat {
    idx + if off > 0 then 1 else 0
  }

  /** `iov_len` of iov i at cursor (idx, off). */
  function LenAt(fetch: bool, iovs: seq<Iov>, idx: nat, off: nat, i: nat): nat
    requires i < |iovs|
  {
    if !fetch then iovs[i].len
    else if i < idx then |iovs[i].data|
    else if i == idx && off > 0 then off
    else iovs[i].len
  }

  /** Between two turns of the copy loop: `s0` is the list at the start, `s` the list now. */
  ghost predicate Cursor(fetch: bool, s0: Sgl, s: Sgl, idx: nat, off: nat) {
    && |s.iovs| == |s0.iovs| && idx <= |s.iovs|
    && (forall i :: 0 <= i < |s0.iovs| ==> IovOk(fetch, s0.iovs[i]))
    && (forall i :: 0 <= i < |s.iovs| ==> |s.iovs[i].data| == |s0.iovs[i].data| && s.iovs[i].nil == s0.iovs[i].nil
                                          && s.iovs[i].len == LenAt(fetch, s0.iovs, idx, off, i))
    && (forall i :: 0 <= i < idx ==> Cap(fetch, s0.iovs[i]) > 0 && !s0.iovs[i].nil)
    && (off > 0 ==> idx < |s.iovs| && off < Cap(fetch, s0.iovs[idx]) && !s0.iovs[idx].nil)
    && (fetch ==> s.nrOut == Touched(idx, off))
    && (!fetch ==> s == s0)
  }

  /** Position of the cursor in the stream. */
  function Pos(fetch: bool, s0: Sgl, idx: nat, off: nat): nat
    requires idx <= |s0.iovs|
  {
    Off(fetch, s0.iovs, idx) + off
  }

  lemma CursorShape(fetch: bool, s0: Sgl, s: Sgl, idx: nat, off: nat, i: nat)
    requires Cursor(fetch, s0, s, idx, off) && i <= |s.iovs|
    ensures forall k :: 0 <= k < |s.iovs| ==> IovOk(fetch, s.iovs[k]) && Cap(fetch, s.iovs[k]) == Cap(fetch, s0.iovs[k])
    ensures Off(fetch, s.iovs, i) == Off(fetch, s0.iovs, i)
  {
    OffSame(fetch, s.iovs, s0.iovs, i);
  }

  /** Iov i after a fetch of t bytes: `sg_nr_out` counts it exactly if the bytes reach it, and then `iov_len` is the
      number of bytes it got; otherwise it keeps its length. */
  predicate ConsumedIov(s0: Sgl, s: Sgl, t: nat, i: nat)
    requires i < |s.iovs| == |s0.iovs|
  {
    && (i < s.nrOut <==> Off(true, s0.iovs, i) < t)
    && s.iovs[i].len == if Off(true, s0.iovs, i) >= t then s0.iovs[i].len
                        else if Off(true, s0.iovs, i + 1) <= t then |s0.iovs[i].data|
                        else t - Off(true, s0.iovs, i)
  }

  lemma ConsumedPrefix(s0: Sgl, s: Sgl, idx: nat, off: nat, i: nat)
    requires Cursor(true, s0, s, idx, off) && i < |s.iovs|
    ensures ConsumedIov(s0, s, Pos(true, s0, idx, off), i)
  {
    if i < idx {
      OffMono(true, s0.iovs, i + 1, idx);
    } else {
      OffMono(true, s0.iovs, idx, i);
      if i > idx {
        OffMono(true, s0.iovs, idx + 1, i);
      }
    }
  }

  /** Overwriting part of a stream. */
  function Splice(f: seq<Byte>, at: nat, bytes: seq<Byte>): seq<Byte>
    requires at + |bytes| <= |f|
  {
    f[..at] + bytes + f[at + |bytes|..]
  }

  lemma Regroup(a: seq<Byte>, b: seq<Byte>, c: seq<Byte>, d: seq<Byte>)
    ensures (a + b + c) + d == a + b + (c + d)
  {
  }

  /** The concatenation around the i-th iov does not depend on what is in it. */
  lemma {:induction false} FlatAround(iovs: seq<Iov>, i: nat, v: Iov) returns (rest: seq<Byte>)
    requires i < |iovs|
    ensures Flat(true, iovs) == Flat(true, iovs[..i]) + iovs[i].data + rest
    ensures Flat(true, iovs[i := v]) == Flat(true, iovs[..i]) + v.data + rest
  {
    var n := |iovs| - 1;
    if i == n {
      rest := [];
      assert iovs[i := v][..n] == iovs[..n];
    } else {
      var more := FlatAround(iovs[..n], i, v);
      assert iovs[..n][..i] == iovs[..i] && iovs[i := v][..n] == iovs[..n][i := v];
      rest := more + iovs[n].data;
      Regroup(Flat(true, iovs[..i]), iovs[i].data, more, iovs[n].data);
      Regroup(Flat(true, iovs[..i]), v.data, more, iovs[n].data);
    }
  }

  lemma SpliceMiddle(f: seq<Byte>, g: seq<Byte>, a: seq<Byte>, b: seq<Byte>, c: seq<Byte>, o: nat, bytes: seq<Byte>,
                     at: nat)
    requires o + |bytes| <= |b| && at == |a| + o && f == a + b + c && g == a + Splice(b, o, bytes) + c
    ensures at + |bytes| <= |f| && g == Splice(f, at, bytes)
  {
    var h := Splice(f, at, bytes);
    forall k | 0 <= k < |f| ensures g[k] == h[k] {
    }
  }

  /** Overwriting the buffer of one iov overwrites its place in the concatenation, which starts at `at`. */
  lemma FlatEdit(iovs: seq<Iov>, i: nat, o: nat, bytes: seq<Byte>, len: nat, at: nat)
    requires i < |iovs| && o + |bytes| <= |iovs[i].data| && at == Off(true, iovs, i) + o
    ensures at + |bytes| <= |Flat(true, iovs)|
    ensures Flat(true, iovs[i := Iov(Splice(iovs[i].data, o, bytes), iovs[i].nil, len)]) ==
              Splice(Flat(true, iovs), at, bytes)
  {
    var v := Iov(Splice(iovs[i].data, o, bytes), iovs[i].nil, len);
    var rest := FlatAround(iovs, i, v);
    FetchLen(iovs[..i]);
    OffTake(true, iovs, i, i);
    SpliceMiddle(Flat(true, iovs), Flat(true, iovs[i := v]), Flat(true, iovs[..i]), iovs[i].data, rest, o, bytes, at);
  }

  lemma {:induction false} FetchLen(iovs: seq<Iov>)
    ensures |Flat(true, iovs)| == Off(true, iovs, |iovs|)
  {
    if iovs != [] {
      FetchLen(iovs[..|iovs| - 1]);
      OffTake(true, iovs, |iovs| - 1, |iovs| - 1);
    }
  }

  /** Two adjacent overwrites are one. */
  lemma SpliceJoin(f: seq<Byte>, at: nat, a: seq<Byte>, b: seq<Byte>)
    requires at + |a| + |b| <= |f|
    ensures |Splice(f, at, a)| == |f|
    ensures Splice(Splice(f, at, a), at + |a|, b) == Splice(f, at, a + b)
  {
  }

  /** The cursor after `nob` more bytes. */
  function NextIdx(cap: nat, idx: nat, off: nat): nat {
    if off == cap then idx + 1 else idx
  }

  function NextOff(cap: nat, off: nat): nat {
    if off == cap then 0 else off
  }

  /** One turn of the copy loop moves the cursor by the bytes it copies. */
  lemma TurnCursor(fetch: bool, s0: Sgl, s: Sgl, idx: nat, off: nat, nob: nat, t: Sgl)
    requires Cursor(fetch, s0, s, idx, off) && idx < |s.iovs| && !s0.iovs[idx].nil
    requires 0 < nob && off + nob <= Cap(fetch, s0.iovs[idx])
    requires if fetch then
               && |t.iovs| == |s.iovs| && (forall i :: 0 <= i < |s.iovs| && i != idx ==> t.iovs[i] == s.iovs[i])
               && |t.iovs[idx].data| == |s.iovs[idx].data| && !t.iovs[idx].nil && t.iovs[idx].len == off + nob
               && t.nrOut == if off == 0 then s.nrOut + 1 else s.nrOut
             else t == s
    ensures var cap := Cap(fetch, s0.iovs[idx]);
            && Cursor(fetch, s0, t, NextIdx(cap, idx, off + nob), NextOff(cap, off + nob))
            && Pos(fetch, s0, NextIdx(cap, idx, off + nob), NextOff(cap, off + nob)) == Pos(fetch, s0, idx, off) + nob
  {
  }

  /** The cursor is behind good iovs only. */
  lemma CursorGood(fetch: bool, s0: Sgl, s: Sgl, idx: nat, off: nat, i: nat)
    requires Cursor(fetch, s0, s, idx, off) && i < |s0.iovs| && Off(fetch, s0.iovs, i) < Pos(fetch, s0, idx, off)
    ensures Cap(fetch, s0.iovs[i]) > 0 && !s0.iovs[i].nil
  {
    if i > idx {
      OffMono(fetch, s0.iovs, idx + 1, i);
    }
  }

  lemma CursorNotBad(fetch: bool, s0: Sgl, s: Sgl, idx: nat, off: nat)
    requires Cursor(fetch, s0, s, idx, off)
    ensures !Bad(fetch, s0.iovs, Pos(fetch, s0, idx, off))
  {
    var t := Pos(fetch, s0, idx, off);
    forall i | 0 <= i < |s0.iovs| && Off(fetch, s0.iovs, i) < t ensures Cap(fetch, s0.iovs[i]) > 0 && !s0.iovs[i].nil {
      CursorGood(fetch, s0, s, idx, off, i);
    }
  }

  lemma CursorRoom(fetch: bool, s0: Sgl, s: Sgl, idx: nat, off: nat)
    requires Cursor(fetch, s0, s, idx, off)
    ensures Room(fetch, s0.iovs, Pos(fetch, s0, idx, off))
  {
    CursorNotBad(fetch, s0, s, idx, off);
    CursorFits(fetch, s0, s, idx, off);
  }

  lemma CursorFits(fetch: bool, s0: Sgl, s: Sgl, idx: nat, off: nat)
    requires Cursor(fetch, s0, s, idx, off)
    ensures Pos(fetch, s0, idx, off) <= Off(fetch, s0.iovs, |s0.iovs|)
  {
    if off > 0 {
      OffMono(fetch, s0.iovs, idx + 1, |s0.iovs|);
    } else {
      OffMono(fetch, s0.iovs, idx, |s0.iovs|);
    }
  }

  lemma RoomLess(fetch: bool, iovs: seq<Iov>, t: nat, u: nat)
    requires t <= u
    ensures Room(fetch, iovs, u) ==> Room(fetch, iovs, t)
    ensures Bad(fetch, iovs, t) ==> Bad(fetch, iovs, u)
  {
  }

  /** One turn in a fetch: `bytes` go into the current iov; a hole writes nothing. */
  function Filled(s: Sgl, idx: nat, off: nat, nob: nat, bytes: Option<seq<Byte>>): Sgl
    requires idx < |s.iovs| && off + nob <= |s.iovs[idx].data| && (bytes.Some? ==> |bytes.value| == nob)
  {
    var v := s.iovs[idx];
    Sgl(s.iovs[idx := Iov(if bytes.Some? then Splice(v.data, off, bytes.value) else v.data, v.nil, off + nob)],
        if off == 0 then s.nrOut + 1 else s.nrOut)
  }

  /** Lengths do not matter in a fetch. */
  lemma {:induction false} FlatData(iovs: seq<Iov>, i: nat, len: nat)
    requires i < |iovs|
    ensures Flat(true, iovs[i := iovs[i].(len := len)]) == Flat(true, iovs)
  {
    var n := |iovs| - 1;
    var v := iovs[i].(len := len);
    if i < n {
      FlatData(iovs[..n], i, len);
      assert iovs[i := v][..n] == iovs[..n][i := v];
    } else {
      assert iovs[i := v][..n] == iovs[..n];
    }
  }

  /** The stream after one turn at position `at`. */
  function Turned(f: seq<Byte>, at: nat, bytes: Option<seq<Byte>>): seq<Byte> {
    if bytes.Some? && at + |bytes.value| <= |f| then Splice(f, at, bytes.value) else f
  }

  lemma FilledFlat(s: Sgl, idx: nat, off: nat, nob: nat, bytes: Option<seq<Byte>>, at: nat)
    requires idx < |s.iovs| && off + nob <= |s.iovs[idx].data| && (bytes.Some? ==> |bytes.value| == nob)
    requires at == Off(true, s.iovs, idx) + off
    ensures at + nob <= |Flat(true, s.iovs)|
    ensures Flat(true, Filled(s, idx, off, nob, bytes).iovs) == Turned(Flat(true, s.iovs), at, bytes)
  {
    var v := s.iovs[idx];
    if bytes.Some? {
      FlatEdit(s.iovs, idx, off, bytes.value, off + nob, at);
      assert Filled(s, idx, off, nob, bytes).iovs
             == s.iovs[idx := Iov(Splice(v.data, off, bytes.value), v.nil, off + nob)];
    } else {
      FlatData(s.iovs, idx, off + nob);
      FetchLen(s.iovs);
      OffMono(true, s.iovs, idx + 1, |s.iovs|);
      assert Filled(s, idx, off, nob, bytes).iovs == s.iovs[idx := v.(len := off + nob)];
    }
  }

  lemma FilledCursor(s0: Sgl, s: Sgl, idx: nat, off: nat, nob: nat, bytes: Option<seq<Byte>>)
    requires At(true, s0, s, idx, off) && idx < |s.iovs| == |s0.iovs| && !s0.iovs[idx].nil
    requires 0 < nob && off + nob <= |s0.iovs[idx].data| == |s.iovs[idx].data| && (bytes.Some? ==> |bytes.value| == nob)
    ensures var cap := |s0.iovs[idx].data|;
            && At(true, s0, Filled(s, idx, off, nob, bytes), NextIdx(cap, idx, off + nob), NextOff(cap, off + nob))
            && Pos(true, s0, NextIdx(cap, idx, off + nob), NextOff(cap, off + nob)) == Pos(true, s0, idx, off) + nob
  {
    OpenAt(true, s0, s, idx, off);
    TurnCursor(true, s0, s, idx, off, nob, Filled(s, idx, off, nob, bytes));
  }

  lemma DrawnCursor(s0: Sgl, s: Sgl, idx: nat, off: nat, nob: nat)
    requires At(false, s0, s, idx, off) && idx < |s.iovs| == |s0.iovs| && !s0.iovs[idx].nil
    requires 0 < nob && off + nob <= s0.iovs[idx].len
    ensures s == s0 && IovOk(false, s0.iovs[idx])
    ensures var cap := s0.iovs[idx].len;
            && At(false, s0, s, NextIdx(cap, idx, off + nob), NextOff(cap, off + nob))
            && Pos(false, s0, NextIdx(cap, idx, off + nob), NextOff(cap, off + nob)) == Pos(false, s0, idx, off) + nob
    ensures var at := Pos(false, s0, idx, off);
            at + nob <= |Flat(false, s0.iovs)|
              && Flat(false, s0.iovs)[at..at + nob] == s0.iovs[idx].data[off..off + nob]
  {
    OpenAt(false, s0, s, idx, off);
    TurnCursor(false, s0, s, idx, off, nob, s);
    FlatPiece(false, s0.iovs, idx, off, nob, Pos(false, s0, idx, off));
    assert Win(false, s0.iovs[idx])[off..off + nob] == s0.iovs[idx].data[off..off + nob];
  }

  /** The concatenation before, in and behind the i-th iov. */
  lemma {:induction false} FlatSplit(fetch: bool, iovs: seq<Iov>, i: nat) returns (rest: seq<Byte>)
    requires i < |iovs|
    ensures Flat(fetch, iovs) == Flat(fetch, iovs[..i]) + Win(fetch, iovs[i]) + rest
  {
    var n := |iovs| - 1;
    if i == n {
      rest := [];
    } else {
      var more := FlatSplit(fetch, iovs[..n], i);
      assert iovs[..n][..i] == iovs[..i];
      rest := more + Win(fetch, iovs[n]);
      Regroup(Flat(fetch, iovs[..i]), Win(fetch, iovs[i]), more, Win(fetch, iovs[n]));
    }
  }

  lemma SplitPiece(f: seq<Byte>, a: seq<Byte>, b: seq<Byte>, c: seq<Byte>, o: nat, n: nat, at: nat)
    requires f == a + b + c && o + n <= |b| && at == |a| + o
    ensures at + n <= |f| && f[at..at + n] == b[o..o + n]
  {
    var g, h := f[at..at + n], b[o..o + n];
    forall k | 0 <= k < n ensures g[k] == h[k] {
    }
  }

  /** A piece of the current iov, as part of the concatenation; `at` is where it starts. */
  lemma FlatPiece(fetch: bool, iovs: seq<Iov>, i: nat, o: nat, n: nat, at: nat)
    requires forall k :: 0 <= k < |iovs| ==> IovOk(fetch, iovs[k])
    requires i < |iovs| && o + n <= Cap(fetch, iovs[i]) && IovOk(fetch, iovs[i]) && at == Off(fetch, iovs, i) + o
    ensures at + n <= |Flat(fetch, iovs)| && Flat(fetch, iovs)[at..at + n] == Win(fetch, iovs[i])[o..o + n]
  {
    var rest := FlatSplit(fetch, iovs, i);
    FlatLen(fetch, iovs[..i]);
    OffTake(fetch, iovs, i, i);
    SplitPiece(Flat(fetch, iovs), Flat(fetch, iovs[..i]), Win(fetch, iovs[i]), rest, o, n, at);
  }

  /** The iovs after a fetch of extent b at position `at`: a hole leaves them as they are. */
  function Overlaid(f: seq<Byte>, at: nat, b: Bio): seq<Byte> {
    if b.buf.Some? && at + |b.buf.value| <= |f| then Splice(f, at, b.buf.value) else f
  }

  lemma OverlaidEmpty(f: seq<Byte>, at: nat, b: Bio)
    requires b.size == 0 && BioOk(true, b)
    ensures Overlaid(f, at, b) == f
  {
  }

  /** Extent b after an update from position `at`. */
  function Drawn(b: Bio, f: seq<Byte>, at: nat): Bio {
    if b.size == 0 || at + b.size > |f| then b else Bio(b.size, Some(f[at..at + b.size]))
  }

  /** A fetch of extent b in progress: its first m bytes are in the stream, which was f0. */
  ghost predicate FetchMid(f0: seq<Byte>, f: seq<Byte>, at: nat, b: Bio, m: nat) {
    && m <= b.size && (b.buf.Some? ==> |b.buf.value| == b.size) && at + m <= |f0|
    && f == if b.buf.Some? then Splice(f0, at, b.buf.value[..m]) else f0
  }

  /** An update of extent b in progress: its first m bytes are drawn from stream f; it was b0. */
  ghost predicate UpdateMid(b0: Bio, b: Bio, f: seq<Byte>, at: nat, m: nat) {
    && b0.buf.Some? && m <= |b0.buf.value| == b0.size && at + m <= |f|
    && b == b0.(buf := Some(Splice(b0.buf.value, 0, f[at..at + m])))
  }

  /** The two predicates above, and `Cursor`, folded: the verifier sees them only through the lemmas below. */
  ghost predicate Fetching(f0: seq<Byte>, f: seq<Byte>, at: nat, b: Bio, m: nat) {
    forall x {:trigger Look(x)} :: Look(x) ==> FetchMid(f0, f, at, b, m)
  }

  ghost predicate Updating(b0: Bio, b: Bio, f: seq<Byte>, at: nat, m: nat) {
    forall x {:trigger Look(x)} :: Look(x) ==> UpdateMid(b0, b, f, at, m)
  }

  ghost predicate At(fetch: bool, s0: Sgl, s: Sgl, idx: nat, off: nat) {
    idx <= |s0.iovs| && forall x {:trigger Look(x)} :: Look(x) ==> Cursor(fetch, s0, s, idx, off)
  }

  lemma AtFacts(fetch: bool, s0: Sgl, s: Sgl, idx: nat, off: nat)
    requires At(fetch, s0, s, idx, off)
    ensures |s.iovs| == |s0.iovs|
    ensures idx < |s.iovs| ==> && Cap(fetch, s.iovs[idx]) == Cap(fetch, s0.iovs[idx])
                               && s.iovs[idx].nil == s0.iovs[idx].nil
                               && IovOk(fetch, s0.iovs[idx]) && |s.iovs[idx].data| == |s0.iovs[idx].data|
                               && (off == 0 || off < Cap(fetch, s.iovs[idx]))
    ensures idx == |s.iovs| ==> off == 0
  {
    assert Look(0);
  }

  lemma OpenAt(fetch: bool, s0: Sgl, s: Sgl, idx: nat, off: nat)
    requires At(fetch, s0, s, idx, off)
    ensures Cursor(fetch, s0, s, idx, off)
  {
    assert Look(0);
  }

  /** What a copy that wants the first t bytes of the iovs returns: success exactly if there is room for them; an iov
      that is needed but empty or without buffer is invalid, and running out of good iovs is too big. */
  ghost predicate Verdict(rc: CopyRc, fetch: bool, iovs: seq<Iov>, t: nat) {
    (rc == Done <==> Room(fetch, iovs, t)) && (rc == Invalid <==> Bad(fetch, iovs, t))
  }

  lemma VerdictDone(fetch: bool, s0: Sgl, s: Sgl, idx: nat, off: nat, t: nat)
    requires At(fetch, s0, s, idx, off) && Pos(fetch, s0, idx, off) == t
    ensures Verdict(Done, fetch, s0.iovs, t)
  {
    OpenAt(fetch, s0, s, idx, off);
    CursorRoom(fetch, s0, s, idx, off);
  }

  lemma AtBound(fetch: bool, s0: Sgl, s: Sgl, idx: nat, off: nat)
    requires At(fetch, s0, s, idx, off)
    ensures |s.iovs| == |s0.iovs| && (!fetch ==> s == s0) && Pos(fetch, s0, idx, off) <= |Flat(fetch, s.iovs)|
  {
    OpenAt(fetch, s0, s, idx, off);
    CursorRoom(fetch, s0, s, idx, off);
    CursorShape(fetch, s0, s, idx, off, |s.iovs|);
    FlatLen(fetch, s.iovs);
  }

  lemma VerdictInvalid(fetch: bool, s0: Sgl, s: Sgl, idx: nat, off: nat, t: nat)
    requires At(fetch, s0, s, idx, off) && Pos(fetch, s0, idx, off) < t && idx < |s.iovs|
    requires Cap(fetch, s.iovs[idx]) <= off || s.iovs[idx].nil
    ensures Verdict(Invalid, fetch, s0.iovs, t)
  {
    OpenAt(fetch, s0, s, idx, off);
    assert Off(fetch, s0.iovs, idx) < t && (Cap(fetch, s0.iovs[idx]) == 0 || s0.iovs[idx].nil);
  }

  lemma VerdictTooBig(fetch: bool, s0: Sgl, s: Sgl, idx: nat, off: nat, t: nat)
    requires At(fetch, s0, s, idx, off) && Pos(fetch, s0, idx, off) < t && idx >= |s.iovs|
    ensures Verdict(TooBig, fetch, s0.iovs, t)
  {
    OpenAt(fetch, s0, s, idx, off);
  }

  /** The piece of extent b that goes into an iov. */
  function Piece(b: Bio, m: nat, nob: nat): Option<seq<Byte>> {
    if b.buf.Some? && m + nob <= |b.buf.value| then Some(b.buf.value[m..m + nob]) else None
  }

  lemma FetchMidTurn(f0: seq<Byte>, f: seq<Byte>, at: nat, b: Bio, m: nat, nob: nat)
    requires FetchMid(f0, f, at, b, m) && m + nob <= b.size && at + m + nob <= |f0|
    ensures |f| == |f0|
    ensures FetchMid(f0, if b.buf.Some? then Splice(f, at + m, b.buf.value[m..m + nob]) else f, at, b, m + nob)
  {
    if b.buf.Some? {
      var v := b.buf.value;
      SpliceJoin(f0, at, v[..m], v[m..m + nob]);
      assert v[..m] + v[m..m + nob] == v[..m + nob];
    }
  }

  lemma UpdateMidTurn(b0: Bio, b: Bio, f: seq<Byte>, at: nat, m: nat, nob: nat)
    requires Updating(b0, b, f, at, m) && at + m + nob <= |f| && m + nob <= b0.size
    ensures b.buf.Some? && |b.buf.value| == b0.size
    ensures Updating(b0, b.(buf := Some(Splice(b.buf.value, m, f[at + m..at + m + nob]))), f, at, m + nob)
  {
    assert Look(0);
    SpliceJoin(b0.buf.value, 0, f[at..at + m], f[at + m..at + m + nob]);
    assert f[at..at + m] + f[at + m..at + m + nob] == f[at..at + m + nob];
  }

  lemma FetchMidEnds(f0: seq<Byte>, f: seq<Byte>, at: nat, b: Bio, m: nat)
    requires Fetching(f0, f, at, b, m) && m == b.size
    ensures f == Overlaid(f0, at, b)
  {
    assert Look(0);
    if b.buf.Some? {
      assert b.buf.value[..b.size] == b.buf.value;
    }
  }

  lemma UpdateMidEnds(b0: Bio, b: Bio, f: seq<Byte>, at: nat, m: nat)
    requires Updating(b0, b, f, at, m) && m == b0.size > 0
    ensures b == Drawn(b0, f, at)
  {
    assert Look(0);
    assert Splice(b0.buf.value, 0, f[at..at + b0.size]) == f[at..at + b0.size];
  }

  lemma FetchMidStart(f: seq<Byte>, at: nat, b: Bio)
    requires at <= |f| && BioOk(true, b)
    ensures Fetching(f, f, at, b, 0)
  {
    assert b.buf.Some? ==> b.buf.value[..0] == [] && Splice(f, at, []) == f;
  }

  lemma UpdateMidStart(b: Bio, f: seq<Byte>, at: nat)
    requires at <= |f| && BioOk(false, b) && b.size > 0
    ensures Updating(b, b, f, at, 0)
  {
    assert f[at..at] == [] && Splice(b.buf.value, 0, []) == b.buf.value;
  }

  /** A turn in a fetch, seen from the concatenated iovs; `pos` is the position of the cursor. */
  lemma FetchMidFilled(f0: seq<Byte>, at: nat, b: Bio, m: nat, s: Sgl, idx: nat, off: nat, nob: nat, pos: nat)
    requires idx < |s.iovs| && pos == Off(true, s.iovs, idx) + off == at + m
    requires Fetching(f0, Flat(true, s.iovs), at, b, m) && off + nob <= |s.iovs[idx].data| && m + nob <= b.size
    ensures (b.buf.Some? ==> Piece(b, m, nob).Some? && |Piece(b, m, nob).value| == nob)
    ensures Fetching(f0, Flat(true, Filled(s, idx, off, nob, Piece(b, m, nob)).iovs), at, b, m + nob)
  {
    FilledFlat(s, idx, off, nob, Piece(b, m, nob), pos);
    FetchingTurn(f0, Flat(true, s.iovs), at, b, m, nob, pos);
  }

  lemma AtOff(s0: Sgl, s: Sgl, idx: nat, off: nat)
    requires At(true, s0, s, idx, off) && idx < |s.iovs|
    ensures Off(true, s.iovs, idx) == Off(true, s0.iovs, idx)
  {
    OpenAt(true, s0, s, idx, off);
    CursorShape(true, s0, s, idx, off, idx);
  }

  lemma FetchingTurn(f0: seq<Byte>, f: seq<Byte>, at: nat, b: Bio, m: nat, nob: nat, pos: nat)
    requires Fetching(f0, f, at, b, m) && m + nob <= b.size && pos == at + m && pos + nob <= |f|
    ensures b.buf.Some? ==> |b.buf.value| == b.size
    ensures Fetching(f0, Turned(f, pos, Piece(b, m, nob)), at, b, m + nob)
  {
    assert Look(0);
    assert |f| == |f0|;
    FetchMidTurn(f0, f, at, b, m, nob);
  }

  // ---------------------------------------------------------------------------------------------
  // All extents of one list
  // ---------------------------------------------------------------------------------------------

  lemma VerdictLater(rc: CopyRc, fetch: bool, iovs: seq<Iov>, t: nat, u: nat)
    requires Verdict(rc, fetch, iovs, t) && rc != Done && t <= u
    ensures Verdict(rc, fetch, iovs, u)
  {
    RoomLess(fetch, iovs, t, u);
    if rc == TooBig && Bad(fetch, iovs, u) {
      var i :| 0 <= i < |iovs| && Off(fetch, iovs, i) < u && (Cap(fetch, iovs[i]) == 0 || iovs[i].nil);
      OffMono(fetch, iovs, i, |iovs|);
    }
  }

  lemma {:induction false} TotalMono(bios: seq<Bio>, j: nat)
    requires j <= |bios|
    ensures Total(bios[..j]) <= Total(bios)
    decreases |bios|
  {
    if j < |bios| {
      TotalMono(bios[..|bios| - 1], j);
      assert bios[..|bios| - 1][..j] == bios[..j];
    } else {
      assert bios[..j] == bios;
    }
  }

  lemma TotalNext(bios: seq<Bio>, j: nat)
    requires j < |bios|
    ensures Total(bios[..j + 1]) == Total(bios[..j]) + bios[j].size
  {
    assert bios[..j + 1][..j] == bios[..j];
  }

  /** The stream of j+1 extents. */
  lemma StreamNext(bios: seq<Bio>, j: nat, f: seq<Byte>)
    requires j < |bios| && |Stream(bios[..j], f)| + bios[j].size <= |f|
    ensures var n := |Stream(bios[..j], f)|;
            Stream(bios[..j + 1], f) == Stream(bios[..j], f)
                                        + if bios[j].buf.Some? then bios[j].buf.value else f[n..n + bios[j].size]
  {
    assert bios[..j + 1][..j] == bios[..j];
  }

  lemma OverlaidNext(pre: seq<Byte>, f: seq<Byte>, b: Bio)
    requires BioOk(true, b) && |pre| + b.size <= |f|
    ensures var n := |pre|;
            Overlaid(pre + f[n..], n, b) ==
              pre + (if b.buf.Some? then b.buf.value else f[n..n + b.size]) + f[n + b.size..]
  {
  }

  /** j extents are fetched into the iovs, whose stream was f0. */
  ghost predicate Fetched(bios: seq<Bio>, j: nat, f0: seq<Byte>, f: seq<Byte>, t: nat) {
    j <= |bios| && t <= |f0| && |Stream(bios[..j], f0)| == t && f == Stream(bios[..j], f0) + f0[t..]
  }

  lemma FetchedNext(bios: seq<Bio>, j: nat, f0: seq<Byte>, f: seq<Byte>, t: nat, u: nat)
    requires Fetched(bios, j, f0, f, t) && j < |bios| && BioOk(true, bios[j]) && u == t + bios[j].size <= |f0|
    ensures Fetched(bios, j + 1, f0, Overlaid(f, t, bios[j]), u)
  {
    StreamNext(bios, j, f0);
    OverlaidNext(Stream(bios[..j], f0), f0, bios[j]);
  }

  /** The first j extents are drawn from stream f; the others are as before. */
  ghost predicate Supplied(was: seq<Bio>, bios: seq<Bio>, j: nat, f: seq<Byte>, t: nat) {
    && |bios| == |was| && j <= |bios| && t <= |f|
    && (forall k :: 0 <= k < |bios| ==> bios[k].size == was[k].size && BioOk(false, bios[k])
                                        && (k >= j ==> bios[k] == was[k]))
    && Stream(bios[..j], f) == f[..t]
  }

  lemma SuppliedNext(was: seq<Bio>, bios: seq<Bio>, j: nat, f: seq<Byte>, t: nat, u: nat)
    requires Supplied(was, bios, j, f, t) && j < |bios| && u == t + bios[j].size <= |f|
    ensures Supplied(was, bios[j := Drawn(bios[j], f, t)], j + 1, f, u)
  {
    var next := bios[j := Drawn(bios[j], f, t)];
    assert next[..j] == bios[..j];
    StreamNext(next, j, f);
    if bios[j].size > 0 {
      assert f[..t] + f[t..t + bios[j].size] == f[..t + bios[j].size];
    } else {
      assert next[j].buf.Some? ==> next[j].buf.value == [];
    }
  }

  /** The caller's list after a fetch of t bytes: exactly the consumed prefix is recorded. */
  ghost predicate Consumed(s0: Sgl, s: Sgl, t: nat) {
    |s.iovs| == |s0.iovs| && forall i :: 0 <= i < |s.iovs| ==> ConsumedIov(s0, s, t, i)
  }

  lemma ConsumedAt(s0: Sgl, s: Sgl, idx: nat, off: nat, t: nat)
    requires At(true, s0, s, idx, off) && Pos(true, s0, idx, off) == t
    ensures Consumed(s0, s, t)
  {
    OpenAt(true, s0, s, idx, off);
    forall i | 0 <= i < |s.iovs| ensures ConsumedIov(s0, s, t, i) {
      ConsumedPrefix(s0, s, idx, off, i);
    }
  }

  // ---------------------------------------------------------------------------------------------
  // The loops
  // ---------------------------------------------------------------------------------------------

  /** `struct bio_copy_args` while it is at one sgl: `iovs` and `nrOut` are the caller's list, `bios` the extents. */
  class CopyArgs {
    const fetch: bool
    var iovs: seq<Iov>
    var nrOut: nat
    var bios: seq<Bio>
    var iovIdx: nat
    var iovOff: nat

    /** `copy_one_setup` */
    constructor (fetch: bool, sgl: Sgl, bios: seq<Bio>)
      ensures this.fetch == fetch && this.bios == bios && iovIdx == 0 && iovOff == 0
      ensures Now() == if fetch then sgl.(nrOut := 0) else sgl
    {
      this.fetch := fetch;
      this.iovs := sgl.iovs;
      this.bios := bios;
      iovIdx, iovOff := 0, 0;
      nrOut := if fetch then 0 else sgl.nrOut;
    }

    function Now(): Sgl
      reads this
    {
      Sgl(iovs, nrOut)
    }

    /** One turn of the loop of `copy_one` in a fetch: `bytes` go into the current iov (none for a hole). */
    method FetchTurn(nob: nat, bytes: Option<seq<Byte>>, ghost s0: Sgl)
      requires fetch && At(true, s0, Now(), iovIdx, iovOff) && iovIdx < |iovs| == |s0.iovs| && !s0.iovs[iovIdx].nil
      requires 0 < nob && iovOff + nob <= |s0.iovs[iovIdx].data| == |iovs[iovIdx].data|
               && (bytes.Some? ==> |bytes.value| == nob)
      modifies this`iovs, this`nrOut, this`iovIdx, this`iovOff
      ensures Now() == Filled(old(Now()), old(iovIdx), old(iovOff), nob, bytes)
      ensures At(true, s0, Now(), iovIdx, iovOff)
      ensures Pos(true, s0, iovIdx, iovOff) == old(Pos(true, s0, iovIdx, iovOff)) + nob
    {
      FilledCursor(s0, Now(), iovIdx, iovOff, nob, bytes);
      var iov := iovs[iovIdx];
      if bytes.Some? {
        iov := iov.(data := Splice(iov.data, iovOff, bytes.value));
      }
      iovOff := iovOff + nob;
      if iovOff == nob {
        nrOut := nrOut + 1;
      }
      iov := iov.(len := iovOff);
      iovs := iovs[iovIdx := iov];
      if iov.len == |iov.data| {
        iovOff := 0;
        iovIdx := iovIdx + 1;
      }
    }

    /** One turn of the loop of `copy_one` in an update: the next bytes of the current iov go to byte m of extent j. */
    method UpdateTurn(j: nat, m: nat, nob: nat, ghost s0: Sgl)
      requires !fetch && At(false, s0, Now(), iovIdx, iovOff) && iovIdx < |iovs| == |s0.iovs| && !s0.iovs[iovIdx].nil
      requires 0 < nob && iovOff + nob <= s0.iovs[iovIdx].len
      requires j < |bios| && bios[j].buf.Some? && m + nob <= |bios[j].buf.value|
      modifies this`bios, this`iovIdx, this`iovOff
      ensures At(false, s0, Now(), iovIdx, iovOff)
      ensures Pos(false, s0, iovIdx, iovOff) == old(Pos(false, s0, iovIdx, iovOff)) + nob <= |Flat(false, s0.iovs)|
      ensures var at := old(Pos(false, s0, iovIdx, iovOff));
              var b := old(bios)[j];
              bios == old(bios)[j := b.(buf := Some(Splice(b.buf.value, m, Flat(false, s0.iovs)[at..at + nob])))]
    {
      DrawnCursor(s0, Now(), iovIdx, iovOff, nob);
      var iov := iovs[iovIdx];
      var b := bios[j];
      bios := bios[j := b.(buf := Some(Splice(b.buf.value, m, iov.data[iovOff..iovOff + nob])))];
      iovOff := iovOff + nob;
      if iovOff == iov.len {
        iovOff := 0;
        iovIdx := iovIdx + 1;
      }
    }

    /** The first m bytes of extent j, which was b0, are copied; `f` was the stream of the iovs. */
    ghost predicate Copied(j: nat, s0: Sgl, b0: Bio, f: seq<Byte>, at: nat, m: nat)
      reads this
    {
      && At(fetch, s0, Now(), iovIdx, iovOff) && Pos(fetch, s0, iovIdx, iovOff) == at + m && j < |bios|
      && if fetch then bios[j] == b0 && Fetching(f, Flat(true, iovs), at, b0, m)
         else f == Flat(false, iovs) && Updating(b0, bios[j], f, at, m)
    }

    /** One turn of the loop of `copy_one` in a fetch. */
    method TurnIn(j: nat, biov: Bio, m: nat, nob: nat, ghost s0: Sgl, ghost f: seq<Byte>, ghost at: nat)
      requires fetch && Copied(j, s0, biov, f, at, m) && iovIdx < |iovs| && !iovs[iovIdx].nil
      requires 0 < nob && iovOff + nob <= Cap(fetch, iovs[iovIdx]) && m + nob <= biov.size
      modifies this`iovs, this`nrOut, this`iovIdx, this`iovOff
      ensures Copied(j, s0, biov, f, at, m + nob)
    {
      AtFacts(true, s0, Now(), iovIdx, iovOff);
      AtOff(s0, Now(), iovIdx, iovOff);
      FetchMidFilled(f, at, biov, m, Now(), iovIdx, iovOff, nob, at + m);
      ghost var next := Filled(Now(), iovIdx, iovOff, nob, Piece(biov, m, nob));
      FetchTurn(nob, Piece(biov, m, nob), s0);
      assert iovs == next.iovs;
    }

    /** One turn of the loop of `copy_one` in an update. */
    method TurnOut(j: nat, biov: Bio, m: nat, nob: nat, ghost s0: Sgl, ghost f: seq<Byte>, ghost at: nat)
      requires !fetch && Copied(j, s0, biov, f, at, m) && iovIdx < |iovs| && !iovs[iovIdx].nil
      requires 0 < nob && iovOff + nob <= Cap(fetch, iovs[iovIdx]) && m + nob <= biov.size
      modifies this`bios, this`iovIdx, this`iovOff
      ensures Copied(j, s0, biov, f, at, m + nob) && bios == old(bios)[j := bios[j]]
    {
      AtFacts(false, s0, Now(), iovIdx, iovOff);
      DrawnCursor(s0, Now(), iovIdx, iovOff, nob);
      UpdateMidTurn(biov, bios[j], f, at, m, nob);
      ghost var next := bios[j].(buf := Some(Splice(bios[j].buf.value, m, f[at + m..at + m + nob])));
      UpdateTurn(j, m, nob, s0);
      assert bios[j] == next;
    }

    /** One turn of the loop of `copy_one`. */
    method Turn(j: nat, biov: Bio, m: nat, nob: nat, ghost s0: Sgl, ghost f: seq<Byte>, ghost at: nat) returns (n: nat)
      requires Copied(j, s0, biov, f, at, m) && iovIdx < |iovs| && !iovs[iovIdx].nil
      requires 0 < nob && iovOff + nob <= Cap(fetch, iovs[iovIdx]) && m + nob <= biov.size
      modifies this
      ensures n == m + nob && Copied(j, s0, biov, f, at, n)
      ensures if fetch then bios == old(bios) else Now() == old(Now()) && bios == old(bios)[j := bios[j]]
    {
      if fetch {
        TurnIn(j, biov, m, nob, s0, f, at);
      } else {
        TurnOut(j, biov, m, nob, s0, f, at);
      }
      n := m + nob;
    }

    /** `copy_one`.  It succeeds exactly if the iovs have room for the extent behind the cursor; an iov that is needed
        but empty or without buffer is invalid, running out of iovs is too big. */
    method CopyOne(j: nat, ghost s0: Sgl) returns (rc: CopyRc)
      requires At(fetch, s0, Now(), iovIdx, iovOff) && j < |bios| && BioOk(fetch, bios[j])
      modifies this
      ensures At(fetch, s0, Now(), iovIdx, iovOff)
      ensures var t := old(Pos(fetch, s0, iovIdx, iovOff)) + old(bios)[j].size;
              Verdict(rc, fetch, s0.iovs, t)
      ensures if fetch then bios == old(bios) else Now() == old(Now())
      ensures rc == Done ==>
                var at := old(Pos(fetch, s0, iovIdx, iovOff));
                && Pos(fetch, s0, iovIdx, iovOff) == at + old(bios)[j].size
                && if fetch then Flat(true, iovs) == Overlaid(Flat(true, old(iovs)), at, bios[j])
                   else bios == old(bios)[j := Drawn(old(bios)[j], Flat(false, s0.iovs), at)]
    {
      var biov := bios[j];
      var size := biov.size;
      ghost var at, f := Pos(fetch, s0, iovIdx, iovOff), Flat(fetch, iovs);
      AtBound(fetch, s0, Now(), iovIdx, iovOff);
      if size == 0 {
        VerdictDone(fetch, s0, Now(), iovIdx, iovOff, at + biov.size);
        OverlaidEmpty(f, at, biov);
        return Done;
      }
      if fetch {
        FetchMidStart(f, at, biov);
      } else {
        UpdateMidStart(biov, f, at);
      }
      var m := 0;
      while iovIdx < |iovs|
        invariant m + size == biov.size && size > 0 && Copied(j, s0, biov, f, at, m)
        invariant if fetch then bios == old(bios) else Now() == old(Now()) && bios == old(bios)[j := bios[j]]
        decreases size
      {
        var iov := iovs[iovIdx];
        var bufLen := Cap(fetch, iov);
        if bufLen <= iovOff || iov.nil {
          VerdictInvalid(fetch, s0, Now(), iovIdx, iovOff, at + biov.size);
          return Invalid;
        }
        var nob := if size < bufLen - iovOff then size else bufLen - iovOff;
        m := Turn(j, biov, m, nob, s0, f, at);
        size := size - nob;
        if size == 0 {
          VerdictDone(fetch, s0, Now(), iovIdx, iovOff, at + biov.size);
          if fetch {
            FetchMidEnds(f, Flat(true, iovs), at, biov, m);
          } else {
            UpdateMidEnds(biov, bios[j], f, at, m);
          }
          return Done;
        }
      }
      VerdictTooBig(fetch, s0, Now(), iovIdx, iovOff, at + biov.size);
      return TooBig;
    }
  
    /** The extents before the j-th are copied. */
    ghost predicate Through(s0: Sgl, was: seq<Bio>, j: nat)
      reads this
      requires j <= |was|
    {
      && At(fetch, s0, Now(), iovIdx, iovOff) && Pos(fetch, s0, iovIdx, iovOff) == Total(was[..j])
      && if fetch then bios == was && Fetched(was, j, Flat(true, s0.iovs), Flat(true, iovs), Total(was[..j]))
         else Now() == s0 && Supplied(was, bios, j, Flat(false, s0.iovs), Total(was[..j]))
    }

    /** One extent, in turn. */
    method CopyNext(j: nat, ghost s0: Sgl, ghost was: seq<Bio>) returns (rc: CopyRc)
      requires j < |was| == |bios| && Through(s0, was, j) && BioOk(fetch, was[j])
      modifies this
      ensures Verdict(rc, fetch, s0.iovs, Total(was[..j + 1]))
      ensures rc == Done ==> Through(s0, was, j + 1) && |bios| == |was|
    {
      ghost var t := Total(was[..j]);
      TotalNext(was, j);
      assert bios[j] == was[j];
      rc := CopyOne(j, s0);
      if rc == Done {
        AtBound(fetch, s0, Now(), iovIdx, iovOff);
        SameLength(fetch, s0, Now(), iovIdx, iovOff);
        if fetch {
          FetchedNext(was, j, Flat(true, s0.iovs), Flat(true, old(iovs)), t, Total(was[..j + 1]));
        } else {
          SuppliedNext(was, old(bios), j, Flat(false, s0.iovs), t, Total(was[..j + 1]));
        }
      }
    }

    /** The inner loop of `iterate_biov`. */
    method CopyAll(ghost s0: Sgl, ghost was: seq<Bio>) returns (rc: CopyRc)
      requires s0 == Now() && was == bios && iovIdx == 0 && iovOff == 0 && (fetch ==> nrOut == 0)
      requires forall i :: 0 <= i < |iovs| ==> IovOk(fetch, iovs[i])
      requires forall j :: 0 <= j < |bios| ==> BioOk(fetch, bios[j])
      modifies this
      ensures Verdict(rc, fetch, s0.iovs, Total(was))
      ensures rc == Done ==> Through(s0, was, |was|)
    {
      rc := Done;
      var j := 0;
      ThroughStart(fetch, s0, was);
      while j < |bios|
        invariant 0 <= j <= |bios| == |was| && Through(s0, was, j) && rc == Done
      {
        TotalMono(was, j + 1);
        rc := CopyNext(j, s0, was);
        if rc != Done {
          VerdictLater(rc, fetch, s0.iovs, Total(was[..j + 1]), Total(was));
          return;
        }
        j := j + 1;
      }
      assert was[..j] == was;
      VerdictDone(fetch, s0, Now(), iovIdx, iovOff, Total(was));
    }
  }

  lemma SameLength(fetch: bool, s0: Sgl, s: Sgl, idx: nat, off: nat)
    requires At(fetch, s0, s, idx, off)
    ensures |Flat(fetch, s.iovs)| == |Flat(fetch, s0.iovs)|
  {
    OpenAt(fetch, s0, s, idx, off);
    CursorShape(fetch, s0, s, idx, off, |s.iovs|);
    FlatLen(fetch, s.iovs);
    FlatLen(fetch, s0.iovs);
  }

  lemma ThroughStart(fetch: bool, s0: Sgl, was: seq<Bio>)
    requires forall i :: 0 <= i < |s0.iovs| ==> IovOk(fetch, s0.iovs[i])
    requires fetch ==> s0.nrOut == 0
    requires forall j :: 0 <= j < |was| ==> BioOk(fetch, was[j])
    ensures At(fetch, s0, s0, 0, 0) && Total(was[..0]) == 0
    ensures var f := Flat(fetch, s0.iovs);
            if fetch then Fetched(was, 0, f, f, 0) else Supplied(was, was, 0, f, 0)
  {
    assert Cursor(fetch, s0, s0, 0, 0);
    var f := Flat(fetch, s0.iovs);
    assert [] + f[0..] == f && f[..0] == [];
  }

  /** What copying one list means: in a fetch, byte k of the concatenated extents is byte k of the concatenated iovs,
      bytes of holes and bytes behind the extents are as before, and exactly the consumed prefix is recorded; in an
      update, the concatenated extents are the first bytes of the concatenated iovs. */
  ghost predicate SglDone(fetch: bool, s0: Sgl, s: Sgl, was: seq<Bio>, bios: seq<Bio>) {
    var f, t := Flat(fetch, s0.iovs), Total(was);
    && |bios| == |was| && t <= |f|
    && if fetch then bios == was && Flat(true, s.iovs) == Stream(was, f) + f[t..] && Consumed(s0, s, t)
       else s == s0 && (forall j :: 0 <= j < |was| ==> bios[j].size == was[j].size && BioOk(false, bios[j]))
            && Stream(bios, f) == f[..t]
  }

  /** One turn of the outer loop of `iterate_biov`. */
  method CopySgl(fetch: bool, sgl: Sgl, was: seq<Bio>) returns (rc: CopyRc, out: Sgl, bios: seq<Bio>)
    requires forall i :: 0 <= i < |sgl.iovs| ==> IovOk(fetch, sgl.iovs[i])
    requires forall j :: 0 <= j < |was| ==> BioOk(fetch, was[j])
    ensures Verdict(rc, fetch, sgl.iovs, Total(was))
    ensures rc == Done ==> SglDone(fetch, sgl, out, was, bios)
  {
    var arg := new CopyArgs(fetch, sgl, was);
    ghost var s0 := arg.Now();
    rc := arg.CopyAll(s0, was);
    out, bios := arg.Now(), arg.bios;
    if rc == Done {
      assert was[..|was|] == was && (!fetch ==> bios[..|bios|] == bios);
      if fetch {
        ConsumedAt(s0, out, arg.iovIdx, arg.iovOff, Total(was));
        assert forall i :: 0 <= i < |out.iovs| && ConsumedIov(s0, out, Total(was), i) ==>
               ConsumedIov(sgl, out, Total(was), i);
      }
    }
  }

  /** The first i lists are copied; folded. */
  ghost predicate ListsDone(fetch: bool, sgls: seq<Sgl>, outs: seq<Sgl>, was: seq<seq<Bio>>, bsgls: seq<seq<Bio>>,
                            i: nat) {
    && |outs| == |bsgls| == i <= |sgls| == |was|
    && forall x {:trigger Look(x)} :: Look(x) ==>
         forall n :: 0 <= n < i ==> Room(fetch, sgls[n].iovs, Total(was[n]))
                                    && SglDone(fetch, sgls[n], outs[n], was[n], bsgls[n])
  }

  lemma ListsOpen(fetch: bool, sgls: seq<Sgl>, outs: seq<Sgl>, was: seq<seq<Bio>>, bsgls: seq<seq<Bio>>, i: nat)
    requires ListsDone(fetch, sgls, outs, was, bsgls, i)
    ensures forall n :: 0 <= n < i ==> Room(fetch, sgls[n].iovs, Total(was[n]))
    ensures forall n :: 0 <= n < i ==> SglDone(fetch, sgls[n], outs[n], was[n], bsgls[n])
  {
    assert Look(0);
  }

  lemma ListsNext(fetch: bool, sgls: seq<Sgl>, outs: seq<Sgl>, was: seq<seq<Bio>>, bsgls: seq<seq<Bio>>, i: nat,
                  out: Sgl, bios: seq<Bio>)
    requires ListsDone(fetch, sgls, outs, was, bsgls, i) && i < |was|
    requires Room(fetch, sgls[i].iovs, Total(was[i])) && SglDone(fetch, sgls[i], out, was[i], bios)
    ensures ListsDone(fetch, sgls, outs + [out], was, bsgls + [bios], i + 1)
  {
    ListsOpen(fetch, sgls, outs, was, bsgls, i);
    forall n | 0 <= n < i + 1
      ensures Room(fetch, sgls[n].iovs, Total(was[n]))
              && SglDone(fetch, sgls[n], (outs + [out])[n], was[n], (bsgls + [bios])[n])
    {
      if n < i {
        assert (outs + [out])[n] == outs[n] && (bsgls + [bios])[n] == bsgls[n];
      }
    }
  }

  /** `bio_iod_copy`: it succeeds exactly if the descriptor is prepared, the numbers of lists agree, and every list has
      room for its extents; then every list was copied.  The first list that fails ends it. */
  method IodCopy(prepared: bool, fetch: bool, sgls: seq<Sgl>, was: seq<seq<Bio>>)
    returns (rc: CopyRc, outs: seq<Sgl>, bsgls: seq<seq<Bio>>)
    requires forall n, i :: 0 <= n < |sgls| && 0 <= i < |sgls[n].iovs| ==> IovOk(fetch, sgls[n].iovs[i])
    requires forall n, j :: 0 <= n < |was| && 0 <= j < |was[n]| ==> BioOk(fetch, was[n][j])
    ensures rc == Done <==> prepared && |sgls| == |was|
                            && forall n :: 0 <= n < |was| ==> Room(fetch, sgls[n].iovs, Total(was[n]))
    ensures rc == Done ==> |outs| == |sgls| && |bsgls| == |was|
                           && forall n :: 0 <= n < |was| ==> SglDone(fetch, sgls[n], outs[n], was[n], bsgls[n])
    ensures rc != Done && prepared && |sgls| == |was| ==>
              exists n :: 0 <= n < |was| && Verdict(rc, fetch, sgls[n].iovs, Total(was[n]))
                          && forall k :: 0 <= k < n ==> Room(fetch, sgls[k].iovs, Total(was[k]))
  {
    rc, outs, bsgls := Done, [], [];
    if !prepared || |was| != |sgls| {
      rc := Invalid;
      return;
    }
    var i := 0;
    while i < |was|
      invariant 0 <= i <= |was| && rc == Done && ListsDone(fetch, sgls, outs, was, bsgls, i)
    {
      var out, bios;
      rc, out, bios := CopySgl(fetch, sgls[i], was[i]);
      if rc != Done {
        ListsOpen(fetch, sgls, outs, was, bsgls, i);
        return;
      }
      ListsNext(fetch, sgls, outs, was, bsgls, i, out, bios);
      outs, bsgls := outs + [out], bsgls + [bios];
      i := i + 1;
    }
    ListsOpen(fetch, sgls, outs, was, bsgls, i);
  }

  lemma {:induction false} StreamLen(bios: seq<Bio>, f: seq<Byte>)
    requires forall j :: 0 <= j < |bios| ==> BioOk(false, bios[j])
    ensures |Stream(bios, f)| == Total(bios)
  {
    if bios != [] {
      StreamLen(bios[..|bios| - 1], f);
    }
  }

  /** After an update, extent j holds the slice of the concatenated iovs that starts behind the extents before it. */
  lemma {:induction false} StreamSlice(bios: seq<Bio>, f: seq<Byte>, j: nat, x: nat)
    requires forall k :: 0 <= k < |bios| ==> BioOk(false, bios[k])
    requires j < |bios| && bios[j].buf.Some? && x < |bios[j].buf.value|
    ensures Total(bios[..j]) + x < |Stream(bios, f)| && Stream(bios, f)[Total(bios[..j]) + x] == bios[j].buf.value[x]
    decreases |bios|
  {
    var n := |bios| - 1;
    StreamLen(bios[..n], f);
    if j < n {
      StreamSlice(bios[..n], f, j, x);
      assert bios[..n][..j] == bios[..j];
    }
  }
}
