/** Metadata contexts (bio_context.c): holding blobstores, creating, opening, closing and deleting blobs, and the
    rollback of `bio_mc_create` and `bio_mc_open`.

    What SPDK and the server metadata answer is arbitrary: every outcome of every call is considered. */
module Context {
  import opened BioTypes

  /** `enum smd_dev_type` */
  datatype Dev = Data | Meta | Wal

  type BlobId = nat
  type CtxId = nat

  /** Results: 0, or some error. */
  datatype Status = Good | Bad

  function Ids(id: Option<BlobId>): set<BlobId> {
    if id.Some? then {id.value} else {}
  }

  /** The blobstores of an xstream and what lives in them. */
  class Stores {
    /** Whether metadata is on NVMe (`bio_nvme_configured(SMD_DEV_TYPE_META)`), whether data is, and which device types
        have a blobstore of their own. */
    const metaOnNvme: bool
    const dataOnNvme: bool
    const own: set<Dev>
    /** `bb_holdings` of the blobstores. */
    var holdings: map<Dev, nat>
    /** All blobs, by their ids; ids are never used twice. */
    var blobs: set<BlobId>
    var nextBlob: BlobId
    /** The I/O contexts that are open. */
    var open: set<CtxId>
    var nextCtx: CtxId
    /** The blobs that could not be deleted. */
    ghost var leaked: set<BlobId>
    /** The I/O contexts that `bio_ioctxt_close` was called on. */
    ghost var tried: set<CtxId>

    constructor (metaOnNvme: bool, dataOnNvme: bool, own: set<Dev>)
      requires Data in own
      ensures Valid() && blobs == {} && open == {} && leaked == {} && tried == {}
      ensures forall st :: Holdings(st) == 0
    {
      this.metaOnNvme := metaOnNvme;
      this.dataOnNvme := dataOnNvme;
      this.own := own;
      holdings := map[];
      blobs, nextBlob, open, nextCtx := {}, 0, {}, 0;
      leaked, tried := {}, {};
    }

    ghost predicate Valid()
      reads this
    {
      && Data in own
      && (forall b :: b in blobs ==> b < nextBlob)
      && (forall b :: b in leaked ==> b < nextBlob)
      && (forall x :: x in open ==> x < nextCtx)
      && (forall x :: x in tried ==> x < nextCtx)
    }

    function Holdings(st: Dev): nat
      reads this`holdings
    {
      if st in holdings then holdings[st] else 0
    }

    /** `bio_xs_context2xs_blobstore`: WAL falls back to the store of meta, and meta to the store of data. */
    function StoreOf(st: Dev): Dev {
      if st in own then st
      else if st.Wal? && Meta in own then Meta
      else Data
    }

    /** All holdings are what they were. */
    twostate predicate SameHoldings()
      reads this`holdings
    {
      forall st :: Holdings(st) == old(Holdings(st))
    }

    /** `bio_bs_hold` on blobstore bs; it may be closed or in a state that rejects requests. */
    method Hold(bs: Dev) returns (rc: Status)
      modifies this`holdings
      ensures forall st :: Holdings(st) == old(Holdings(st)) + if rc.Good? && st == bs then 1 else 0
    {
      var usable: bool := *;
      if !usable {
        return Bad;
      }
      holdings := holdings[bs := Holdings(bs) + 1];
      return Good;
    }

    /** `bio_bs_unhold` */
    method Unhold(bs: Dev)
      requires Holdings(bs) > 0
      modifies this`holdings
      ensures forall st :: Holdings(st) == old(Holdings(st)) - if st == bs then 1 else 0
    {
      holdings := holdings[bs := Holdings(bs) - 1];
    }

    /** `bio_blob_delete`: the blob is gone, or it leaked. */
    method BlobDelete(st: Dev, id: BlobId) returns (rc: Status)
      requires Valid()
      modifies this`holdings, this`blobs, this`leaked
      ensures Valid() && SameHoldings()
      ensures (blobs == old(blobs) - {id} && leaked == old(leaked))
              || (blobs == old(blobs) && leaked == old(leaked) + {id} * blobs)
      ensures rc.Good? ==> id !in blobs
    {
      var bs := StoreOf(st);
      rc := Hold(bs);
      if rc.Bad? {
        leaked := leaked + {id} * blobs;
        return;
      }
      var deleted: bool := *;
      if !deleted {
        leaked := leaked + {id} * blobs;
        rc := Bad;
      } else {
        blobs := blobs - {id};
        var unassigned: bool := *;
        rc := if unassigned then Good else Bad;
      }
      Unhold(bs);
    }

    /** `bio_blob_create`: on success there is one more blob; on failure there is none more but the one that could not
        be deleted again after its registration failed. */
    method BlobCreate(st: Dev) returns (rc: Status, id: Option<BlobId>)
      requires Valid()
      modifies this
      ensures Valid() && SameHoldings() && open == old(open) && tried == old(tried) && nextCtx == old(nextCtx)
      ensures rc.Good? <==> id.Some?
      ensures rc.Good? ==> blobs == old(blobs) + {id.value} && id.value !in old(blobs) && leaked == old(leaked)
      ensures rc.Bad? ==> blobs == old(blobs) + (leaked - old(leaked)) && old(leaked) <= leaked
      ensures forall b :: b in leaked - old(leaked) ==> b >= old(nextBlob)
      ensures nextBlob >= old(nextBlob) && (id.Some? ==> id.value >= old(nextBlob))
    {
      id := None;
      // The blobstore is closed, the size is too small, or the pool has a blob already.
      var admissible: bool := *;
      if !admissible {
        return Bad, None;
      }
      var bs := StoreOf(st);
      rc := Hold(bs);
      if rc.Bad? {
        return;
      }
      var created: bool := *;
      if !created {
        rc := Bad;
      } else {
        var b := nextBlob;
        nextBlob := nextBlob + 1;
        blobs := blobs + {b};
        var registered: bool := *;
        if !registered {
          rc := Bad;
          var rc1 := BlobDelete(st, b);
        } else {
          rc, id := Good, Some(b);
        }
      }
      Unhold(bs);
    }

    /** `__bio_ioctxt_open` */
    method CtxOpen(st: Dev) returns (rc: Status, x: Option<CtxId>)
      requires Valid()
      modifies this`holdings, this`open, this`nextCtx
      ensures Valid() && SameHoldings() && (rc.Good? <==> x.Some?) && nextCtx >= old(nextCtx)
      ensures rc.Good? ==> x.value >= old(nextCtx) && open == old(open) + {x.value} && x.value !in old(open)
      ensures rc.Bad? ==> open == old(open)
    {
      x := None;
      var bs := StoreOf(st);
      rc := Hold(bs);
      if rc.Bad? {
        return;
      }
      var found: bool := *;
      if found {
        x := Some(nextCtx);
        open := open + {nextCtx};
        nextCtx := nextCtx + 1;
      }
      rc := if found then Good else Bad;
      Unhold(bs);
    }

    /** `bio_ioctxt_close`: the context is freed even if its blob could not be closed, but not if the blobstore could
        not be held. */
    method CtxClose(st: Dev, x: CtxId) returns (rc: Status)
      requires Valid() && x in open
      modifies this`holdings, this`open, this`tried
      ensures Valid() && SameHoldings() && tried == old(tried) + {x}
      ensures open == old(open) || open == old(open) - {x}
      ensures rc.Good? ==> open == old(open) - {x}
    {
      tried := tried + {x};
      var bs := StoreOf(st);
      rc := Hold(bs);
      if rc.Bad? {
        return;
      }
      var closed: bool := *;
      rc := if closed then Good else Bad;
      open := open - {x};
      Unhold(bs);
    }

    // -------------------------------------------------------------------------------------------
    // bio_mc_create
    // -------------------------------------------------------------------------------------------

    /** The part of `bio_mc_create` between the labels: both contexts are opened, the blobs formatted, and the contexts
        closed again. */
    method Format() returns (rc: Status)
      requires Valid()
      modifies this`holdings, this`open, this`nextCtx, this`tried
      ensures Valid() && SameHoldings()
      ensures old(open) <= open && open - old(open) <= tried && old(tried) <= tried
    {
      var mcMeta, mcWal: Option<CtxId> := None, None;
      rc, mcMeta := CtxOpen(Meta);
      if rc.Bad? {
        return;
      }
      label CloseMeta: {
        rc, mcWal := CtxOpen(Wal);
        if rc.Bad? {
          break CloseMeta;
        }
        var formatted: bool := *;
        rc := if formatted then Good else Bad;
        var rc1 := CtxClose(Wal, mcWal.value);
        if rc.Good? {
          rc := rc1;
        }
      }
      var rc1 := CtxClose(Meta, mcMeta.value);
      if rc.Good? {
        rc := rc1;
      }
    }

    /** The part of `bio_mc_create` from the meta blob on, with its rollback. */
    method MetaCreate(sizesOk: bool) returns (rc: Status, meta: Option<BlobId>, wal: Option<BlobId>)
      requires Valid()
      modifies this
      ensures Valid() && SameHoldings() && nextBlob >= old(nextBlob)
      ensures rc.Bad? ==> blobs == old(blobs) + (leaked - old(leaked)) && old(leaked) <= leaked
      ensures forall b :: b in leaked - old(leaked) ==> b >= old(nextBlob)
      ensures rc.Good? ==> && meta.Some? && wal.Some? && leaked == old(leaked)
                           && blobs == old(blobs) + Ids(meta) + Ids(wal) && Ids(meta) !! Ids(wal) !! old(blobs)
      ensures old(open) <= open && open - old(open) <= tried && old(tried) <= tried
    {
      meta, wal := None, None;
      if !sizesOk {
        return Bad, None, None;
      }
      rc, meta := BlobCreate(Meta);
      if rc.Bad? {
        return;
      }
      label DeleteMeta: {
        rc, wal := BlobCreate(Wal);
        if rc.Bad? {
          break DeleteMeta;
        }
        rc := Format();
        if rc.Bad? {
          var rc1 := BlobDelete(Wal, wal.value);
        }
      }
      if rc.Bad? {
        assert blobs == old(blobs) + Ids(meta) + (leaked - old(leaked)) && meta.value !in leaked;
        var rc1 := BlobDelete(Meta, meta.value);
      }
    }

    /** `bio_mc_create`; `withData` says that a data blob is asked for, `sizesOk` that the sizes pass the checks.

        If it fails, it leaves none of the blobs it created but those that it could not delete; if it succeeds, there
        are exactly the blobs asked for.  On every path all holdings return to what they were and every I/O context it
        opened was closed, or closing it was tried. */
    method McCreate(withData: bool, sizesOk: bool)
      returns (rc: Status, data: Option<BlobId>, meta: Option<BlobId>, wal: Option<BlobId>)
      requires Valid()
      modifies this
      ensures Valid() && SameHoldings()
      ensures rc.Bad? ==> blobs == old(blobs) + (leaked - old(leaked)) && old(leaked) <= leaked
      ensures rc.Good? ==> leaked == old(leaked)
      ensures rc.Good? ==> (data.Some? <==> withData && dataOnNvme) && (meta.Some? <==> metaOnNvme)
                           && (wal.Some? <==> metaOnNvme)
      ensures rc.Good? ==> blobs == old(blobs) + Ids(data) + Ids(meta) + Ids(wal)
                           && Ids(data) !! Ids(meta) !! Ids(wal) !! old(blobs)
      ensures old(open) <= open && open - old(open) <= tried
    {
      data, meta, wal := None, None, None;
      rc := Good;
      if withData && dataOnNvme {
        rc, data := BlobCreate(Data);
        if rc.Bad? {
          return;
        }
      }
      if !metaOnNvme {
        return;
      }
      rc, meta, wal := MetaCreate(sizesOk);
      if rc.Bad? && data.Some? {
        assert blobs == old(blobs) + Ids(data) + (leaked - old(leaked)) && data.value !in leaked;
        var rc1 := BlobDelete(Data, data.value);
      }
    }

    // -------------------------------------------------------------------------------------------
    // bio_mc_open
    // -------------------------------------------------------------------------------------------

    /** `bio_mc_open`; `rdb` is the flag BIO_MC_FL_RDB, `hasData` says that the metadata header names a data blob.

        On failure no context is returned and closing was tried for every I/O context it opened; a context that is
        returned holds exactly the I/O contexts it opened, and none of them was closed.  On every path all holdings
        return to what they were. */
    method McOpen(rdb: bool, hasData: bool) returns (rc: Status, mc: Option<seq<CtxId>>)
      requires Valid()
      modifies this`holdings, this`open, this`nextCtx, this`tried
      ensures Valid() && SameHoldings() && old(open) <= open
      ensures rc.Bad? ==> mc.None? && open - old(open) <= tried
      ensures mc.Some? ==> open == old(open) + (set x | x in mc.value) && tried == old(tried)
                           && forall i, j :: 0 <= i < j < |mc.value| ==> mc.value[i] != mc.value[j]
      ensures mc.Some? ==> |mc.value| == if !metaOnNvme then 1 else if hasData then 3 else 2
      ensures rc.Good? && mc.None? ==> !metaOnNvme && open == old(open)
    {
      mc := None;
      var mcMeta, mcWal, mcData: Option<CtxId> := None, None, None;
      if !metaOnNvme {
        var queried: bool, exists1: bool := *, *;
        if rdb || (queried && !exists1) {
          return Good, None;
        }
        if !queried {
          return Bad, None;
        }
        rc, mcData := CtxOpen(Data);
        if rc.Good? {
          mc := Some([mcData.value]);
        }
        return;
      }
      rc, mcMeta := CtxOpen(Meta);
      if rc.Bad? {
        return;
      }
      label CloseMetaCtx: {
        var metaOpened: bool := *;
        if !metaOpened {
          rc := Bad;
          break CloseMetaCtx;
        }
        label CloseMeta: {
          rc, mcWal := CtxOpen(Wal);
          if rc.Bad? {
            break CloseMeta;
          }
          label CloseWalCtx: {
            var walOpened: bool := *;
            if !walOpened {
              rc := Bad;
              break CloseWalCtx;
            }
            if hasData {
              rc, mcData := CtxOpen(Data);
              if rc.Bad? {
                break CloseWalCtx;
              }
            }
            mc := Some([mcMeta.value, mcWal.value] + if hasData then [mcData.value] else []);
            return;
          }
          var rc1 := CtxClose(Wal, mcWal.value);
        }
      }
      var rc1 := CtxClose(Meta, mcMeta.value);
    }
  }

  // -----------------------------------------------------------------------------------------------
  // Unmap
  // -----------------------------------------------------------------------------------------------

  /** An extent to unmap, in blocks. */
  datatype Blocks = Blocks(off: nat, cnt: nat)

  /** `blob_unmap_sgl`: all `cnt` extents from `start` on are handed to SPDK, in order, unless the blob is not valid;
      `inflights` is `bca_inflights` before any of them completes and after the bias is dropped. */
  method UnmapBatch(valid: bool, iovs: seq<Blocks>, start: nat, cnt: nat)
    returns (rc: Status, issued: seq<Blocks>, inflights: nat)
    requires start + cnt <= |iovs|
    ensures issued == if valid then iovs[start..start + cnt] else []
    ensures inflights == |issued|
    ensures !valid ==> rc.Bad?
  {
    issued, inflights := [], 0;
    if !valid {
      return Bad, [], 0;
    }
    inflights := 1;
    var i, left := start, cnt;
    while left > 0
      invariant start <= i && i + left == start + cnt
      invariant issued == iovs[start..i] && inflights == 1 + |issued|
    {
      var iov := iovs[i];
      i := i + 1;
      left := left - 1;
      inflights := inflights + 1;
      issued := issued + [iov];
    }
    inflights := inflights - 1;
    var done: bool := *;
    rc := if done then Good else Bad;
  }

  /** `bio_blob_unmap_sgl`: on success every extent was unmapped exactly once, in order, in batches of at most
      `maxCnt`, all of them full but the last; on failure a prefix was. */
  method UnmapSgl(valid: bool, iovs: seq<Blocks>, maxCnt: nat)
    returns (rc: Status, issued: seq<Blocks>, batches: seq<nat>)
    requires maxCnt > 0
    ensures rc.Good? ==> issued == iovs
    ensures issued <= iovs
    ensures forall k :: 0 <= k < |batches| ==> 0 < batches[k] <= maxCnt && (k < |batches| - 1 ==> batches[k] == maxCnt)
  {
    var tot, start := |iovs|, 0;
    rc, issued, batches := Good, [], [];
    while tot > 0
      invariant 0 <= start <= |iovs| && start + tot == |iovs| && issued == iovs[..start] && rc.Good?
      invariant forall k :: 0 <= k < |batches| ==> 0 < batches[k] <= maxCnt
                                                   && (tot > 0 || k < |batches| - 1 ==> batches[k] == maxCnt)
    {
      var cnt := if tot < maxCnt then tot else maxCnt;
      var part, inflights;
      rc, part, inflights := UnmapBatch(valid, iovs, start, cnt);
      assert issued + part <= iovs;
      issued := issued + part;
      if rc.Bad? {
        return;
      }
      batches := batches + [cnt];
      tot := tot - cnt;
      start := start + cnt;
    }
  }
}
