/** The array helpers of src/common/sort.c that the bulk cache relies on. */
module Search {
  import opened BioTypes
  import opened SeqLib
  import opened Pool
  import opened PoolInv
  import opened GroupProofs

  /** In order of size, equal sizes allowed. */
  ghost predicate Ordered(s: seq<nat>, grps: seq<Group>) {
    forall i, j :: 0 <= i < j < |s| ==> PgsOf(grps, s[i]) <= PgsOf(grps, s[j])
  }

  /** `array_bin_search` with FIND_OPC_GE on the sorted group index: the least index whose group is not smaller than the
      key, or -1 if there is none. */
  method FindGroupGe(sorted: seq<nat>, grps: seq<Group>, key: nat) returns (k: int)
    requires sorted != [] && Ordered(sorted, grps)
    ensures k == if FindGe(sorted, grps, key) == |sorted| then -1 else FindGe(sorted, grps, key)
  {
    var start, end, cur, cmp := 0, |sorted| - 1, 0, 0;
    while start <= end
      invariant 0 <= start <= end + 1 <= |sorted| && 0 <= cur < |sorted|
      invariant forall i :: 0 <= i < start ==> PgsOf(grps, sorted[i]) < key
      invariant forall i :: end < i < |sorted| ==> PgsOf(grps, sorted[i]) > key
      invariant cmp < 0 ==> cur == start - 1
      invariant cmp > 0 ==> cur == end + 1
      invariant cmp == 0 ==> start == 0 && end == |sorted| - 1
      decreases end - start
    {
      cur := (start + end) / 2;
      cmp := PgsOf(grps, sorted[cur]) - key;
      if cmp == 0 {
        break;
      }
      if cmp < 0 {
        start := cur + 1;
      } else {
        end := cur - 1;
      }
    }
    if cmp < 0 {
      LeastGe(sorted, grps, key, cur + 1);
      return if cur == |sorted| - 1 then -1 else cur + 1;
    } else if cmp > 0 {
      LeastGe(sorted, grps, key, cur);
      return cur;
    }
    while cur > 0
      invariant 0 <= cur < |sorted| && PgsOf(grps, sorted[cur]) == key
    {
      if PgsOf(grps, sorted[cur - 1]) != key {
        break;
      }
      cur := cur - 1;
    }
    LeastGe(sorted, grps, key, cur);
    return cur;
  }

  /** The index that `FindGe` gives is the only one with smaller groups before it and no smaller group at it. */
  lemma LeastGe(sorted: seq<nat>, grps: seq<Group>, key: nat, k: nat)
    requires k <= |sorted| && (forall i :: 0 <= i < k ==> PgsOf(grps, sorted[i]) < key)
    requires k < |sorted| ==> PgsOf(grps, sorted[k]) >= key
    ensures k == FindGe(sorted, grps, key)
  {
  }

  /** No two slots have groups of one size. */
  ghost predicate Distinct(slots: seq<nat>, grps: seq<Group>) {
    forall i, j :: 0 <= i < j < |slots| ==> PgsOf(grps, slots[i]) != PgsOf(grps, slots[j])
  }

  /** `daos_array_sort` with `unique`: it fails exactly if two keys are equal, and otherwise gives the same slots in
      increasing order. */
  method SortSlots(slots: seq<nat>, grps: seq<Group>) returns (ok: bool, r: seq<nat>)
    ensures ok <==> Distinct(slots, grps)
    ensures ok ==> Increasing(r, grps) && forall x :: x in r <==> x in slots
  {
    r := [];
    var i := 0;
    while i < |slots|
      invariant 0 <= i <= |slots| && Distinct(slots[..i], grps)
      invariant Increasing(r, grps) && forall x :: x in r <==> x in slots[..i]
    {
      var g := slots[i];
      if exists k :: 0 <= k < i && PgsOf(grps, slots[k]) == PgsOf(grps, g) {
        return false, r;
      }
      forall k | 0 <= k < |r| ensures PgsOf(grps, r[k]) != PgsOf(grps, g) {
        assert r[k] in slots[..i];
      }
      InsertOrdered(r, g, grps);
      r := Insert(r, g, grps);
      assert slots[..i + 1] == slots[..i] + [g];
      i := i + 1;
    }
    assert slots[..i] == slots;
    ok := true;
  }

  /** Live groups have different sizes. */
  lemma SizesDiffer(p: Pool, a: nat, b: nat)
    requires Index(p) && a < |p.grps| && b < |p.grps| && a != b
    ensures p.grps[a].pgs != p.grps[b].pgs
  {
    SlotsMembers(p, p.sorted);
    assert a in p.sorted && b in p.sorted;
    var i :| 0 <= i < |p.sorted| && p.sorted[i] == a;
    var j :| 0 <= j < |p.sorted| && p.sorted[j] == b;
    assert i < j ==> Grp(p, p.sorted[i]).pgs < Grp(p, p.sorted[j]).pgs;
    assert j < i ==> Grp(p, p.sorted[j]).pgs < Grp(p, p.sorted[i]).pgs;
  }

  /** Slot g has got size `pgs`, which no group had; the other groups are as they were. */
  ghost predicate Renewed(p: Pool, grps: seq<Group>, g: nat, pgs: nat) {
    && g < |grps| && grps[g].pgs == pgs && |p.grps| <= |grps|
    && forall f :: 0 <= f < |p.grps| && f != g ==> grps[f].pgs == p.grps[f].pgs
  }

  lemma RenewedDistinct(p: Pool, grps: seq<Group>, g: nat, pgs: nat, slots: seq<nat>)
    requires Index(p) && NoSuch(p, pgs) && Renewed(p, grps, g, pgs) && NoDup(slots)
    requires forall x :: x in slots ==> x == g || x < |p.grps|
    ensures Distinct(slots, grps)
  {
    forall i, j | 0 <= i < j < |slots| ensures PgsOf(grps, slots[i]) != PgsOf(grps, slots[j]) {
      assert slots[i] in slots && slots[j] in slots;
      if slots[i] != g && slots[j] != g {
        SizesDiffer(p, slots[i], slots[j]);
      }
    }
  }

  /** Sorting the slots again puts slot g where an insertion into the others would. */
  lemma ResortIsInsert(p: Pool, grps: seq<Group>, g: nat, pgs: nat, slots: seq<nat>, r: seq<nat>)
    requires Index(p) && NoSuch(p, pgs) && Renewed(p, grps, g, pgs)
    requires forall x :: x in slots <==> x == g || x in p.sorted
    requires Increasing(r, grps) && forall x :: x in r <==> x in slots
    ensures r == Insert(Remove<nat>(p.sorted, g), g, grps)
  {
    SlotsMembers(p, p.sorted);
    IndexIncreasing(p);
    var rest := Remove<nat>(p.sorted, g);
    RemoveOrdered(p.sorted, g, p.grps);
    forall i | 0 <= i < |rest| ensures PgsOf(grps, rest[i]) == PgsOf(p.grps, rest[i]) != PgsOf(grps, g) {
      assert rest[i] in rest;
      assert p.grps[rest[i]].pgs != pgs;
    }
    InsertOrdered(rest, g, grps);
    SortedIsUnique(r, Insert(rest, g, grps), grps);
  }
}
