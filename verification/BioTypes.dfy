/** Vocabulary shared by the whole model: media, extents (`struct bio_iov`), reserved
    regions (`struct bio_rsrvd_region`) and the page arithmetic of bio_internal.h.

    Byte offsets and lengths are unbounded naturals; a DMA page is 4096 bytes. */
module BioTypes {

  datatype Option<+T> = None | Some(value: T)

  datatype Media = Scm | Nvme

  /** BIO_IOD_TYPE_UPDATE / FETCH / GETBUF */
  datatype IodType = Update | Fetch | GetBuf

  /** BIO_CHK_TYPE_IO / LOCAL / REBUILD */
  datatype ChkType = Io | Local | Rebuild

  type ChunkId = nat

  /** A cached bulk handle is entry `idx` of the handle array of chunk `chk`. */
  datatype HdlRef = HdlRef(chk: ChunkId, idx: nat)

  /** Size of a DMA page in bytes (BIO_DMA_PAGE_SZ). */
  const PAGE_SZ: nat := 4096

  /** Index of the page holding byte `x` (`x >> BIO_DMA_PAGE_SHIFT`). */
  function FloorPg(x: nat): nat {
    x / 4096
  }

  /** First page boundary, in pages, not below byte `x`. */
  function CeilPg(x: nat): nat {
    (x + 4095) / 4096
  }

  /** `struct bio_iov`: the raw range is [off, off+len); prefix and suffix bytes belong to the
      raw range only, not to the request. */
  datatype Extent = Extent(media: Media, off: nat, len: nat, prefix: nat, suffix: nat,
                           hole: bool, dedup: bool)
  {
    predicate Valid() {
      prefix + suffix <= len
    }

    function End(): nat {
      off + len
    }

    function ReqLen(): nat
      requires Valid()
    {
      len - (prefix + suffix)
    }

    /** Number of pages the extent needs (`dma_biov2pg`). */
    function PgCnt(): nat {
      if media.Scm? then CeilPg(len) else CeilPg(End()) - FloorPg(off)
    }

    /** Offset of the extent in its first page (`dma_biov2pg`). */
    function PgOff(): nat {
      if media.Scm? then 0 else off % 4096
    }
  }

  /** `struct bio_rsrvd_region`.  `hdl` notes the cached bulk handle the region lies in, if any, and
      `reqOff` where in the first page of that handle its request starts; the C struct has no such
      fields, the handle array of the descriptor carries them. */
  datatype Region = Region(chk: ChunkId, pgIdx: nat, chkOff: nat, off: nat, end: nat,
                           media: Media, hdl: Option<HdlRef>, reqOff: nat)
  {
    predicate Wf() {
      && off < end
      && (media.Nvme? ==> chkOff == 0)
    }

    /** Pages of an NVMe region. */
    function Pages(): int {
      CeilPg(end) - FloorPg(off)
    }

    /** The bytes of the chunk that the region occupies are [Lo, Hi).  An NVMe region owns whole
        pages, since the device transfers whole pages; an SCM region owns its own bytes only. */
    function Lo(): nat {
      pgIdx * 4096 + chkOff
    }

    function Hi(): int {
      if media.Scm? then Lo() + (end - off) else (pgIdx + Pages()) * 4096
    }

    /** The pages touched by [Lo, Hi) are [LoPg, HiPg). */
    function LoPg(): nat {
      FloorPg(Lo())
    }

    function HiPg(): int {
      if Hi() < 0 then 0 else CeilPg(Hi())
    }
  }

  /** Where an extent's raw buffer is after mapping: nowhere (hole or empty), directly in SCM, or
      at byte `off` of a DMA chunk. */
  datatype Buf = Null | Direct(scm: nat) | Dma(chk: ChunkId, off: nat)

  /** Return codes of the mapping functions: 0, -DER_AGAIN, -DER_NOMEM, the error of a failed bulk
      registration, and -DER_OVERFLOW. */
  datatype Rc = Ok | Again | NoMem | RegErr | Overflow

  /** An extent of positive length needs at least one page, and fits its pages when placed at its
      in-page offset. */
  lemma ExtentFitsPages(e: Extent)
    requires e.len > 0
    ensures 0 < e.PgCnt()
    ensures e.PgOff() < 4096
    ensures e.PgOff() + e.len <= e.PgCnt() * 4096
  {
  }
}
