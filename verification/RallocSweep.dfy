/**
 * Which chunks of one superblock the recovery sweep puts on the free list, and exactly when those
 * are the dead blocks.  Addresses are relative to the superblock; bs is the block size and end the
 * end of its last block.
 */
module RallocSweep {
  import opened Common

  predicate Sorted(ms: seq<nat>) {
    forall i, j :: 0 <= i < j < |ms| ==> ms[i] < ms[j]
  }

  /** The loop that frees p, p + bs, ... below limit. */
  function FreeRun(p: nat, limit: nat, bs: nat): (f: seq<nat>)
    requires bs > 0
    ensures p >= limit ==> f == []
    ensures forall a :: a in f ==> p <= a < limit
    decreases limit - p
  {
    if p < limit then [p] + FreeRun(p + bs, limit, bs) else []
  }

  /** Everything freed from p on, given the marks still ahead. */
  function Freed(ms: seq<nat>, p: nat, bs: nat, end: nat): seq<nat>
    requires bs > 0
    decreases |ms|
  {
    if ms == [] then FreeRun(p, end, bs) else FreeRun(p, ms[0], bs) + Freed(ms[1..], ms[0] + bs, bs, end)
  }

  /** Two numbers in the same residue class are at least bs apart. */
  lemma Step(p: nat, q: nat, bs: nat)
    requires bs > 0 && p < q && (q - p) % bs == 0
    ensures p + bs <= q && (q - (p + bs)) % bs == 0
  {
    var k := (q - p) / bs;
    assert q - p == k * bs;
    assert k >= 1;
    assert q - (p + bs) == (k - 1) * bs;
    ModOfMultiple(k - 1, bs);
  }

  lemma ModOfMultiple(k: nat, bs: nat)
    requires bs > 0
    ensures (k * bs) % bs == 0
  {
    UniqueRemainder(k * bs, k, 0, bs);
  }

  /** The run holds exactly the points of p's residue class between p and limit. */
  lemma {:induction false} RunHolds(p: nat, limit: nat, bs: nat, a: nat)
    requires bs > 0
    ensures a in FreeRun(p, limit, bs) <==> p <= a < limit && (a - p) % bs == 0
    decreases limit - p
  {
    if p < limit {
      RunHolds(p + bs, limit, bs, a);
      if p < a && (a - p) % bs == 0 { Step(p, a, bs); }
      if p + bs <= a && (a - (p + bs)) % bs == 0 { StepBack(p, a, bs); }
    }
  }

  lemma StepBack(p: nat, q: nat, bs: nat)
    requires bs > 0 && p + bs <= q && (q - (p + bs)) % bs == 0
    ensures (q - p) % bs == 0
  {
    var k := (q - (p + bs)) / bs;
    assert q - p == (k + 1) * bs;
    ModOfMultiple(k + 1, bs);
  }

  lemma SameResidue(a: nat, p: nat, bs: nat)
    requires bs > 0 && p <= a && p % bs == 0
    ensures (a - p) % bs == a % bs
  {
    var k, l, r := p / bs, a / bs, a % bs;
    assert p == k * bs && a == l * bs + r;
    assert a - p == (l - k) * bs + r;
    if l < k {
      Grows(k - l, bs);
      assert false;
    }
    UniqueRemainder(a - p, l - k, r, bs);
  }

  lemma SumResidue(a: nat, b: nat, bs: nat)
    requires bs > 0 && b % bs == 0
    ensures (a + b) % bs == a % bs
  {
    SameResidue(a + b, b, bs);
  }

  // ---- the free list of one superblock ----

  /** Where the sweep stands after the first j marks. */
  function From(ms: seq<nat>, bs: nat, j: nat): nat
    requires j <= |ms|
  {
    if j == 0 then 0 else ms[j - 1] + bs
  }

  /** How far it frees before looking at mark j. */
  function Until(ms: seq<nat>, end: nat, j: nat): nat {
    if j < |ms| then ms[j] else end
  }

  ghost predicate InRun(ms: seq<nat>, bs: nat, end: nat, a: nat, j: nat)
    requires bs > 0
  {
    j <= |ms| && From(ms, bs, j) <= a < Until(ms, end, j) && (a - From(ms, bs, j)) % bs == 0
  }

  lemma FreedMeans(ms: seq<nat>, bs: nat, end: nat, a: nat)
    requires bs > 0
    ensures a in Freed(ms, 0, bs, end) <==> exists j: nat :: InRun(ms, bs, end, a, j)
  {
    assert ms[0..] == ms;
    FreedFrom(ms, bs, end, a, 0);
    if j: nat :| InRun(ms, bs, end, a, j) { assert j >= 0 && InRun(ms, bs, end, a, j); }
  }

  lemma {:induction false} FreedFrom(ms: seq<nat>, bs: nat, end: nat, a: nat, j: nat)
    requires bs > 0 && j <= |ms|
    ensures a in Freed(ms[j..], From(ms, bs, j), bs, end) <==> exists k: nat :: k >= j && InRun(ms, bs, end, a, k)
    decreases |ms| - j
  {
    var p := From(ms, bs, j);
    RunHolds(p, Until(ms, end, j), bs, a);
    if j < |ms| {
      var rest := Freed(ms[j + 1..], From(ms, bs, j + 1), bs, end);
      assert ms[j..][1..] == ms[j + 1..];
      assert Freed(ms[j..], p, bs, end) == FreeRun(p, ms[j], bs) + rest;
      FreedFrom(ms, bs, end, a, j + 1);
      assert a in FreeRun(p, ms[j], bs) <==> InRun(ms, bs, end, a, j);
      if k: nat :| k >= j && InRun(ms, bs, end, a, k) {
        if k > j { assert k >= j + 1 && InRun(ms, bs, end, a, k); }
      }
    } else {
      assert Freed(ms[j..], p, bs, end) == FreeRun(p, end, bs);
      assert a in FreeRun(p, end, bs) <==> InRun(ms, bs, end, a, j);
    }
  }

  /** Block a holds a marked address. */
  ghost predicate Live(ms: seq<nat>, bs: nat, a: nat) { exists m :: m in ms && a <= m < a + bs }

  /** The free list is right: it holds exactly the blocks no marked address falls into. */
  ghost predicate Exact(ms: seq<nat>, bs: nat, end: nat)
    requires bs > 0
  {
    forall a: nat :: a in Freed(ms, 0, bs, end) <==> a % bs == 0 && a < end && !Live(ms, bs, a)
  }

  /**
   * Every marked address that is not the start of a block is at most one block size above another
   * marked address, and again at most one below the next, unless the superblock ends there.
   */
  ghost predicate Covered(ms: seq<nat>, bs: nat, end: nat)
    requires bs > 0
  {
    forall m :: m in ms && m % bs != 0 ==> Before(ms, bs, m) && Behind(ms, bs, end, m)
  }

  ghost predicate Before(ms: seq<nat>, bs: nat, m: nat) { exists q :: q in ms && q < m <= q + bs }

  ghost predicate Behind(ms: seq<nat>, bs: nat, end: nat, m: nat) {
    m + bs >= end || exists n :: n in ms && m < n <= m + bs
  }

  ghost predicate Fits(ms: seq<nat>, bs: nat, end: nat) {
    Sorted(ms) && bs > 0 && end % bs == 0 && forall m :: m in ms ==> m < end + bs
  }

  /** Before an interior mark nothing is freed ... */
  lemma NothingBefore(ms: seq<nat>, bs: nat, end: nat, j: nat)
    requires Fits(ms, bs, end) && Covered(ms, bs, end) && j < |ms|
    ensures ms[j] % bs != 0 ==> From(ms, bs, j) >= ms[j]
  {
    if ms[j] % bs != 0 {
      assert ms[j] in ms;
      var q :| q in ms && q < ms[j] <= q + bs;
      var i :| 0 <= i < |ms| && ms[i] == q;
      assert i < j;
    }
  }

  /** ... and nothing after it until the next mark. */
  lemma NothingAfter(ms: seq<nat>, bs: nat, end: nat, j: nat)
    requires Fits(ms, bs, end) && Covered(ms, bs, end) && j < |ms|
    ensures ms[j] % bs != 0 ==> From(ms, bs, j + 1) >= Until(ms, end, j + 1)
  {
    if ms[j] % bs != 0 {
      assert ms[j] in ms;
      NextMark(ms, bs, end, j);
      if j + 1 < |ms| {
        assert ms[j + 1] in ms;
        NothingBefore(ms, bs, end, j + 1);
        if ms[j + 1] % bs == 0 { NoneBetween(end, ms[j + 1], bs); }
      }
    }
  }

  lemma NextMark(ms: seq<nat>, bs: nat, end: nat, j: nat)
    requires Sorted(ms) && j < |ms| && Behind(ms, bs, end, ms[j])
    ensures From(ms, bs, j + 1) >= Until(ms, end, j + 1) || ms[j] + bs >= end
  {
    if ms[j] + bs < end {
      var n :| n in ms && ms[j] < n <= ms[j] + bs;
      var i :| 0 <= i < |ms| && ms[i] == n;
      assert i > j;
    }
  }

  /** A run that frees anything starts and ends at block boundaries. */
  lemma RunAligned(ms: seq<nat>, bs: nat, end: nat, j: nat)
    requires Fits(ms, bs, end) && Covered(ms, bs, end) && j <= |ms| && From(ms, bs, j) < Until(ms, end, j)
    ensures From(ms, bs, j) % bs == 0
    ensures Until(ms, end, j) % bs == 0 && Until(ms, end, j) <= end
  {
    if j > 0 {
      NothingAfter(ms, bs, end, j - 1);
      SumResidue(ms[j - 1], bs, bs);
    }
    if j < |ms| {
      assert ms[j] in ms;
      NothingBefore(ms, bs, end, j);
      NoneBetween(end, ms[j], bs);
    }
  }

  lemma NoneBetween(e: nat, m: nat, bs: nat)
    requires bs > 0 && e % bs == 0 && m % bs == 0 && m < e + bs
    ensures m <= e
  {
    if m > e {
      SameResidue(m, e, bs);
      Step(e, m, bs);
      assert false;
    }
  }

  lemma FreedIsDead(ms: seq<nat>, bs: nat, end: nat, a: nat)
    requires Fits(ms, bs, end) && Covered(ms, bs, end) && a in Freed(ms, 0, bs, end)
    ensures a % bs == 0 && a < end && !Live(ms, bs, a)
  {
    FreedMeans(ms, bs, end, a);
    var j: nat :| InRun(ms, bs, end, a, j);
    RunAligned(ms, bs, end, j);
    var p, u := From(ms, bs, j), Until(ms, end, j);
    SameResidue(a, p, bs);
    SameResidue(u, a, bs);
    Step(a, u, bs);
    forall m | m in ms ensures m < a || m >= a + bs {
      var i :| 0 <= i < |ms| && ms[i] == m;
      if i < j { assert ms[i] <= ms[j - 1]; } else { assert ms[j] <= ms[i]; }
    }
  }

  lemma DeadIsFreed(ms: seq<nat>, bs: nat, end: nat, a: nat)
    requires Fits(ms, bs, end) && Covered(ms, bs, end) && a % bs == 0 && a < end && !Live(ms, bs, a)
    ensures a in Freed(ms, 0, bs, end)
  {
    var j := FirstAt(ms, a, 0);
    assert j < |ms| ==> ms[j] in ms;
    SameResidue(end, a, bs);
    Step(a, end, bs);
    if j > 0 {
      NothingAfter(ms, bs, end, j - 1);
      SameResidue(a, ms[j - 1], bs);
      Step(ms[j - 1], a, bs);
    } else {
      SameResidue(a, 0, bs);
    }
    assert InRun(ms, bs, end, a, j);
    FreedMeans(ms, bs, end, a);
  }

  /** The number of marks below a. */
  lemma {:induction false} FirstAt(ms: seq<nat>, a: nat, i: nat) returns (j: nat)
    requires Sorted(ms) && i <= |ms| && forall k :: 0 <= k < i ==> ms[k] < a
    ensures j <= |ms| && (forall k :: 0 <= k < j ==> ms[k] < a) && (forall k :: j <= k < |ms| ==> ms[k] >= a)
    decreases |ms| - i
  {
    if i < |ms| && ms[i] < a { j := FirstAt(ms, a, i + 1); } else { j := i; }
  }

  lemma ExactNeedsBefore(ms: seq<nat>, bs: nat, end: nat, j: nat)
    requires Fits(ms, bs, end) && Exact(ms, bs, end) && j < |ms| && ms[j] % bs != 0
    ensures Before(ms, bs, ms[j])
  {
    var m, p := ms[j], From(ms, bs, j);
    assert m in ms;
    if j > 0 && m <= p { assert ms[j - 1] in ms && ms[j - 1] < m; }
    else {
      assert InRun(ms, bs, end, p, j);
      FreedMeans(ms, bs, end, p);
      var a := m - m % bs;
      Floor(m, bs);
      NoneBetween(a, p, bs);
      SameResidue(a, p, bs);
      assert InRun(ms, bs, end, a, j);
      FreedMeans(ms, bs, end, a);
      assert Live(ms, bs, a);
      assert false;
    }
  }

  lemma Floor(m: nat, bs: nat)
    requires bs > 0
    ensures m % bs <= m && (m - m % bs) % bs == 0
  {
    var k := m / bs;
    assert m == k * bs + m % bs;
    ModOfMultiple(k, bs);
  }

  lemma ExactNeedsAfter(ms: seq<nat>, bs: nat, end: nat, j: nat)
    requires Fits(ms, bs, end) && Exact(ms, bs, end) && j < |ms| && ms[j] % bs != 0
    ensures Behind(ms, bs, end, ms[j])
  {
    var m := ms[j];
    assert m in ms;
    if !Behind(ms, bs, end, m) {
      assert j + 1 < |ms| ==> ms[j + 1] in ms;
      assert InRun(ms, bs, end, m + bs, j + 1);
      FreedMeans(ms, bs, end, m + bs);
      SumResidue(m, bs, bs);
      assert false;
    }
  }

  /** The sweep of a small superblock is exact if and only if its marks are covered. */
  lemma ExactIffCovered(ms: seq<nat>, bs: nat, end: nat)
    requires Fits(ms, bs, end)
    ensures Exact(ms, bs, end) <==> Covered(ms, bs, end)
  {
    if Covered(ms, bs, end) {
      forall a: nat ensures a in Freed(ms, 0, bs, end) <==> a % bs == 0 && a < end && !Live(ms, bs, a) {
        if a in Freed(ms, 0, bs, end) { FreedIsDead(ms, bs, end, a); }
        else if a % bs == 0 && a < end && !Live(ms, bs, a) { DeadIsFreed(ms, bs, end, a); }
      }
    }
    if Exact(ms, bs, end) {
      forall m | m in ms && m % bs != 0 ensures Before(ms, bs, m) && Behind(ms, bs, end, m) {
        var j :| 0 <= j < |ms| && ms[j] == m;
        ExactNeedsBefore(ms, bs, end, j);
        ExactNeedsAfter(ms, bs, end, j);
      }
    }
  }

  /** One interior address is enough to free a live block and to tear two others. */
  lemma InteriorMarkBreaks()
    ensures Fits([24], 16, 64) && !Exact([24], 16, 64)
    ensures Freed([24], 0, 16, 64) == [0, 16, 40, 56] && Live([24], 16, 16)
  {
    assert 24 in [24];
    assert FreeRun(0, 24, 16) == [0, 16] && FreeRun(40, 64, 16) == [40, 56];
    ExactIffCovered([24], 16, 64);
    assert !Before([24], 16, 24);
  }

  /** Nothing is freed twice, whatever the marks. */
  lemma {:induction false} FreedSorted(ms: seq<nat>, p: nat, bs: nat, end: nat)
    requires Sorted(ms) && bs > 0
    ensures Sorted(Freed(ms, p, bs, end))
    decreases |ms|
  {
    RunSorted(p, Until(ms, end, 0), bs);
    if ms != [] {
      FreedSorted(ms[1..], ms[0] + bs, bs, end);
      FreedAbove(ms[1..], ms[0] + bs, bs, end);
      var l, r := FreeRun(p, ms[0], bs), Freed(ms[1..], ms[0] + bs, bs, end);
      forall i, j | 0 <= i < j < |l + r| ensures (l + r)[i] < (l + r)[j] {
        if i < |l| <= j { assert l[i] in l && r[j - |l|] in r; }
      }
    }
  }

  lemma {:induction false} FreedAbove(ms: seq<nat>, p: nat, bs: nat, end: nat)
    requires Sorted(ms) && bs > 0 && forall m :: m in ms ==> m + bs >= p
    ensures forall a :: a in Freed(ms, p, bs, end) ==> a >= p
    decreases |ms|
  {
    if ms != [] {
      assert ms[0] in ms;
      FreedAbove(ms[1..], ms[0] + bs, bs, end);
    }
  }

  lemma {:induction false} RunSorted(p: nat, limit: nat, bs: nat)
    requires bs > 0
    ensures Sorted(FreeRun(p, limit, bs))
    decreases limit - p
  {
    if p < limit {
      RunSorted(p + bs, limit, bs);
      var r := FreeRun(p + bs, limit, bs);
      forall i, j | 0 <= i < j < |[p] + r| ensures ([p] + r)[i] < ([p] + r)[j] {
        if i == 0 { assert r[j - 1] in r; }
      }
    }
  }
}
