/** `roundup_pgs`: the bulk size of a group is the largest one that still yields as many handles per chunk. */
module Rounding {
  import opened BioTypes
  import opened SeqLib
  import opened Pool

  lemma RowsGrow(a: nat, b: nat, d: nat)
    requires a < b
    ensures a * d + d <= b * d
  {
    assert (a + 1) * d <= b * d;
    assert (a + 1) * d == a * d + d;
  }

  lemma QuotientBounds(n: nat, d: nat)
    requires d > 0
    ensures (n / d) * d <= n < (n / d) * d + d
  {
    assert n == d * (n / d) + n % d;
  }

  /** k rows of d fit into n exactly when k is at most the quotient. */
  lemma QuotientAtLeast(n: nat, d: nat, k: nat)
    requires d > 0
    ensures k * d <= n <==> k <= n / d
  {
    QuotientBounds(n, d);
    if k < n / d {
      RowsGrow(k, n / d, d);
    } else if k > n / d {
      RowsGrow(n / d, k, d);
    }
  }

  /** Quotients are determined by their bounds. */
  lemma QuotientIs(n: nat, d: nat, k: nat)
    requires d > 0 && k * d <= n < k * d + d
    ensures n / d == k
  {
    QuotientAtLeast(n, d, k);
    QuotientAtLeast(n, d, k + 1);
    assert (k + 1) * d == k * d + d;
  }

  /** If k rows of p fill n up to less than a row, and r rows of k up to less than a row, then so do k rows of r. */
  lemma RowsSwap(n: nat, p: nat, k: nat, r: nat)
    requires p > 0 && k > 0 && k * p <= n < k * p + p && r * k <= n < r * k + k
    ensures p <= r <= n && k * r <= n < k * r + r
  {
    assert p * k == k * p && r * k == k * r;
    if r < p {
      RowsGrow(r, p, k);
    }
    assert k * p <= k * r;
    assert r <= r * k;
  }

  /** With k handles of size `pgs` per chunk, `r = chkSz / k` is between the request and the chunk and still gives
      k handles. */
  lemma RoundedFits(chkSz: nat, pgs: nat, k: nat, r: nat)
    requires 0 < pgs <= chkSz && k == chkSz / pgs && k > 0 && r == chkSz / k
    ensures pgs <= r <= chkSz && r > 0 && chkSz / r == k
  {
    QuotientBounds(chkSz, pgs);
    QuotientBounds(chkSz, k);
    RowsSwap(chkSz, pgs, k, r);
    QuotientIs(chkSz, r, k);
  }

  /** The number of handles k and the rounded size r belong to each other. */
  lemma RoundUpPair(chkSz: nat, pgs: nat) returns (k: nat, r: nat)
    requires 0 < pgs <= chkSz
    ensures k == PerChunk(chkSz, pgs) > 0 && r == PerChunk(chkSz, k) && pgs <= r <= chkSz && PerChunk(chkSz, r) == k
  {
    k := chkSz / pgs;
    QuotientAtLeast(chkSz, pgs, 1);
    r := chkSz / k;
    RoundedFits(chkSz, pgs, k, r);
  }

  /** The rounded size fits the request and the chunk, costs no handle, is the largest size with that many
      handles per chunk, and rounding it again changes nothing. */
  lemma RoundUpSpec(chkSz: nat, pgs: nat)
    requires 0 < pgs <= chkSz
    ensures var r := RoundUpPgs(chkSz, pgs);
            && pgs <= r <= chkSz
            && PerChunk(chkSz, r) == PerChunk(chkSz, pgs) > 0
            && (forall s: nat :: s > 0 && PerChunk(chkSz, s) == PerChunk(chkSz, pgs) ==> s <= r)
            && RoundUpPgs(chkSz, r) == r
  {
    var k, r := RoundUpPair(chkSz, pgs);
    forall s: nat | s > 0 && PerChunk(chkSz, s) == k ensures s <= r {
      Largest(chkSz, k, s);
    }
  }

  /** A size that gives k handles per chunk is at most chkSz / k. */
  lemma Largest(chkSz: nat, k: nat, s: nat)
    requires s > 0 && k > 0 && PerChunk(chkSz, s) == k
    ensures s <= PerChunk(chkSz, k)
  {
    QuotientBounds(chkSz, s);
    assert s * k == k * s;
    QuotientAtLeast(chkSz, k, s);
  }

  /** Windows of different handles of a chunk do not overlap, and all of them lie in the chunk. */
  lemma WindowsApart(chkSz: nat, pgs: nat, a: nat, b: nat)
    requires pgs > 0
    ensures a < b ==> pgs * a + pgs <= pgs * b
    ensures a < PerChunk(chkSz, pgs) ==> pgs * a + pgs <= chkSz
  {
    if a < b {
      RowsGrow(a, b, pgs);
      assert a * pgs == pgs * a && b * pgs == pgs * b;
    }
    if a < chkSz / pgs {
      QuotientAtLeast(chkSz, pgs, a + 1);
      assert (a + 1) * pgs == pgs * a + pgs;
    }
  }
}
