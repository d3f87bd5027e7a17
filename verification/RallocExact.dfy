/**
 * Exactly when recovery is right: no block with a marked address is lost, every other block is freed
 * once.  A large block is live when any address in its whole span is marked.
 */
module RallocExact {
  import opened Common
  import opened CountedStack
  import opened RallocMachine
  import opened RallocSweep
  import opened RallocRecovery

  // ---- what recovery owes the heap ----

  /** Superblock x lies in the span of the large block at e. */
  predicate Spans(desc: seq<Desc>, e: nat, x: nat) { e < |desc| && e <= x < e + SpanOf(desc[e].blockSize) }

  /** The large block at e holds a marked address, at its start or behind it. */
  ghost predicate LargeLive(desc: seq<Desc>, ms: seq<nat>, e: nat) {
    IsLarge(desc, e) && exists m :: m in ms && Spans(desc, e, SbOf(m))
  }

  /** Superblock x has to be kept. */
  ghost predicate HoldsLive(desc: seq<Desc>, ms: seq<nat>, x: nat) {
    (IsSmall(desc, x) && Touched(ms, x)) || exists e: nat :: LargeLive(desc, ms, e) && Spans(desc, e, x)
  }

  ghost predicate Dead(desc: seq<Desc>, ms: seq<nat>, e: nat, a: nat) {
    e < |desc| && desc[e].blockSize > 0 && IsBlockOf(desc, e, a) && !Live(ms, desc[e].blockSize, a)
  }

  /** f is the free list of superblock e as its anchor and memory spell it out. */
  ghost predicate FreeListIs(h: Heap, d: Desc, e: nat, f: seq<nat>) {
    && IsChain(h.mem, f, None) && NoDup(f)
    && var a := Get(h.anchor, e, NO_ANCHOR);
    && a.count == |f|
    && (if f == [] then a.state == Full && a.avail == d.maxcount
        else a.state == Partial && f[|f| - 1] == e * SBSIZE + a.avail * d.blockSize)
  }

  /** Small superblock e: its free list holds exactly the dead blocks, once each, and no other word changed. */
  ghost predicate SmallRight(h: Heap, h': Heap, ms: seq<nat>, e: nat) {
    && e < |h.desc| == |h'.desc| && h'.desc[e] == h.desc[e]
    && exists f :: FreeListIs(h', h.desc[e], e, f) && MemSame(h, h', e, f) && FreesDead(h.desc, ms, e, f)
  }

  ghost predicate FreesDead(desc: seq<Desc>, ms: seq<nat>, e: nat, f: seq<nat>) {
    forall a: nat :: a in f <==> Dead(desc, ms, e, a)
  }

  /** Large block at e: kept whole, with all its contents. */
  ghost predicate LargeRight(h: Heap, h': Heap, e: nat) {
    && e < |h.desc| == |h'.desc| && h'.desc[e] == h.desc[e] && Get(h'.anchor, e, NO_ANCHOR) == Anchor(0, 0, Full)
    && forall a :: Spans(h.desc, e, SbOf(a)) ==> Get(h'.mem, a, None) == Get(h.mem, a, None)
  }

  ghost predicate FreeSbs(desc: seq<Desc>, ms: seq<nat>, l: seq<nat>) {
    forall x: nat :: x in l <==> 1 <= x < |desc| && !HoldsLive(desc, ms, x)
  }

  ghost predicate PartlyFree(desc: seq<Desc>, ms: seq<nat>, sc: nat, l: seq<nat>) {
    forall e: nat :: e in l <==> IsSmall(desc, e) && desc[e].heap == Some(sc) && Touched(ms, e) && HasDead(desc, ms, e)
  }

  ghost predicate HasDead(desc: seq<Desc>, ms: seq<nat>, e: nat) { exists a: nat :: Dead(desc, ms, e, a) }

  ghost predicate AvailHolds(h: Heap, h': Heap, ms: seq<nat>) {
    exists l :: IsList(h'.nextFree, h'.avail, l) && FreeSbs(h.desc, ms, l)
  }

  ghost predicate PartialHolds(h: Heap, h': Heap, ms: seq<nat>, sc: nat) {
    exists l :: IsList(h'.nextPartial, Get(h'.partial, sc, None), l) && PartlyFree(h.desc, ms, sc, l)
  }

  /** h' is the right recovery of h from the marks ms. */
  ghost predicate Right(h: Heap, h': Heap, ms: seq<nat>) {
    && |h'.desc| == |h.desc|
    && (forall e: nat :: LargeLive(h.desc, ms, e) ==> LargeRight(h, h', e))
    && (forall e: nat :: IsSmall(h.desc, e) && Touched(ms, e) ==> SmallRight(h, h', ms, e))
    && (forall x: nat :: 1 <= x < |h.desc| && !HoldsLive(h.desc, ms, x) ==> h'.desc[x] == BLANK)
    && AvailHolds(h, h', ms) && forall sc: nat :: PartialHolds(h, h', ms, sc)
  }

  // ---- when it is ----

  /** The head of the rebuilt free list of superblock e is at a block boundary, as the sweep asserts. */
  ghost predicate Aligned(desc: seq<Desc>, ms: seq<nat>, e: nat)
    requires e < |desc| && desc[e].blockSize > 0
  {
    var f := FreedIn(desc, e, MarksIn(ms, e));
    f != [] ==> f[|f| - 1] >= e * SBSIZE && (f[|f| - 1] - e * SBSIZE) % desc[e].blockSize == 0
  }

  /**
   * The four assertions of the sweep hold: a large block counts one block, a list of free blocks has
   * a head, the head is at a block boundary, and at the end all marks are passed.
   */
  ghost predicate AssertionsHold(h: Heap, ms: seq<nat>)
    requires OkFrom(h.desc, 1)
  {
    && SweepFrom(h, 1, ms).1 == []
    && (forall e: nat :: IsLarge(h.desc, e) && Touched(ms, e) ==> h.desc[e].maxcount == 1)
    && forall e: nat :: IsSmall(h.desc, e) && Touched(ms, e) ==>
      h.desc[e].blockSize > 0 && Headed(h.desc, ms, e) && Aligned(h.desc, ms, e)
  }

  ghost predicate Headed(desc: seq<Desc>, ms: seq<nat>, e: nat)
    requires e < |desc| && desc[e].blockSize > 0
  {
    var f := FreedIn(desc, e, MarksIn(ms, e));
    |f| > 0 ==> LastOr(f, None).Some?
  }

  ghost predicate SmallCovered(desc: seq<Desc>, ms: seq<nat>, e: nat) {
    e < |desc| && desc[e].blockSize > 0
      && Covered(Relative(MarksIn(ms, e), e), desc[e].blockSize, desc[e].maxcount * desc[e].blockSize)
  }

  /** m lies where the sweep does not look for it: the first superblock, or behind the head of a large block. */
  ghost predicate Hidden(desc: seq<Desc>, m: nat) {
    SbOf(m) == 0 || exists e: nat :: IsLarge(desc, e) && e < SbOf(m) && Spans(desc, e, SbOf(m))
  }

  /** What recovery needs of the marks. */
  ghost predicate Fit(desc: seq<Desc>, ms: seq<nat>) {
    && (forall m :: m in ms ==> !Hidden(desc, m))
    && (forall e: nat :: IsSmall(desc, e) ==> SmallCovered(desc, ms, e))
  }

  // ---- marks that fit ----

  lemma FitSkipsNone(desc: seq<Desc>, ms: seq<nat>)
    requires Fit(desc, ms)
    ensures NoneSkipped(desc, ms, 1)
  {
    hide SbOf, SmallCovered;
    forall m | m in ms ensures !Skipped(desc, ms, 1, SbOf(m)) {
      assert !Hidden(desc, m);
      forall e: nat ensures !Shadows(desc, ms, e, SbOf(m)) { }
    }
  }

  /** Only the heads of live large blocks are marked. */
  lemma FitLarge(desc: seq<Desc>, ms: seq<nat>, e: nat)
    requires Fit(desc, ms) && WellFormed(desc)
    ensures LargeLive(desc, ms, e) <==> IsLarge(desc, e) && Touched(ms, e)
  {
    hide SmallCovered, SbOf;
    if LargeLive(desc, ms, e) {
      var m :| m in ms && Spans(desc, e, SbOf(m));
      assert !Hidden(desc, m);
    }
    if IsLarge(desc, e) && Touched(ms, e) {
      assert DescOk(desc, e);
      var m :| m in ms && SbOf(m) == e;
      assert Spans(desc, e, SbOf(m));
    }
  }

  lemma FitHolds(desc: seq<Desc>, ms: seq<nat>, x: nat)
    requires Fit(desc, ms) && WellFormed(desc) && x >= 1
    ensures HoldsLive(desc, ms, x) <==> Kept(desc, ms, x) || Skipped(desc, ms, 1, x)
  {
    hide SmallCovered, SbOf, Touched, Fit, LargeLive;
    if HoldsLive(desc, ms, x) && !(IsSmall(desc, x) && Touched(ms, x)) {
      var e: nat :| LargeLive(desc, ms, e) && Spans(desc, e, x);
      FitLarge(desc, ms, e);
      if e != x { assert e > 0; assert Shadows(desc, ms, e, x); }
    }
    if Kept(desc, ms, x) && IsLarge(desc, x) {
      FitLarge(desc, ms, x);
      assert DescOk(desc, x);
      assert Spans(desc, x, x);
    }
    if Skipped(desc, ms, 1, x) {
      var e: nat :| 1 <= e && Shadows(desc, ms, e, x);
      FitLarge(desc, ms, e);
      assert Spans(desc, e, x);
    }
  }

  // ---- small superblocks ----

  lemma {:induction false} MarksInSorted(ms: seq<nat>, e: nat)
    requires Sorted(ms)
    ensures Sorted(MarksIn(ms, e))
  {
    hide SbOf, MarksIn;
    if ms == [] {
      NoMarksIn(ms, e);
    } else {
      MarksInSorted(ms[1..], e);
      MarksInHead(ms, e);
      var r := MarksIn(ms[1..], e);
      forall i | 0 <= i < |r| ensures ms[0] < r[i] { assert r[i] in r && r[i] in ms[1..]; }
    }
  }

  /** The block at x ends where the last block does, or before. */
  lemma LastBlock(x: nat, n: nat, bs: nat)
    requires bs > 0 && x % bs == 0 && x < n * bs
    ensures x + bs <= n * bs
  {
    var k := x / bs;
    assert x == k * bs;
    if k >= n { Larger(k, n, bs); }
    Larger(n, k + 1, bs);
  }

  lemma Larger(k: nat, n: nat, bs: nat)
    ensures k >= n ==> k * bs >= n * bs
  {
    if k >= n { assert k * bs == n * bs + (k - n) * bs; }
  }

  /** The marks that make a block live are among those of its superblock. */
  lemma LiveHere(desc: seq<Desc>, ms: seq<nat>, e: nat, a: nat)
    requires e < |desc| && DescOk(desc, e) && IsSmall(desc, e) && IsBlockOf(desc, e, a)
    ensures Live(ms, desc[e].blockSize, a) <==> Live(MarksIn(ms, e), desc[e].blockSize, a)
  {
    var bs, base := desc[e].blockSize, e * SBSIZE;
    SmallEnd(desc, e);
    LastBlock(a - base, desc[e].maxcount, bs);
    forall m | a <= m < a + bs ensures SbOf(m) == e { }
  }

  lemma DeadHere(desc: seq<Desc>, ms: seq<nat>, e: nat, f: seq<nat>)
    requires e < |desc| && DescOk(desc, e) && IsSmall(desc, e) && f == FreedIn(desc, e, MarksIn(ms, e))
    ensures FreesDead(desc, ms, e, f) <==> FreeListRight(desc, e, MarksIn(ms, e))
  {
    hide FreedIn, Live;
    forall a: nat | IsBlockOf(desc, e, a)
      ensures Dead(desc, ms, e, a) <==> !Live(MarksIn(ms, e), desc[e].blockSize, a)
    {
      LiveHere(desc, ms, e, a);
    }
  }

  lemma SortedNoDup(f: seq<nat>)
    requires Sorted(f)
    ensures NoDup(f)
  {
  }

  lemma {:induction false} OneChain(mem: map<nat, Option<nat>>, f: seq<nat>, g: seq<nat>)
    requires IsChain(mem, f, None) && IsChain(mem, g, None) && |f| == |g| && (f != [] ==> f[|f| - 1] == g[|g| - 1])
    ensures f == g
  {
    if f != [] {
      var n := |f| - 1;
      assert Get(mem, f[n], None) == Prior(f, None, n) && Get(mem, g[n], None) == Prior(g, None, n);
      ChainFront(mem, f);
      ChainFront(mem, g);
      OneChain(mem, f[..n], g[..n]);
      assert f == f[..n] + [f[n]] && g == g[..n] + [g[n]];
    }
  }

  lemma ChainFront(mem: map<nat, Option<nat>>, f: seq<nat>)
    requires IsChain(mem, f, None) && f != []
    ensures IsChain(mem, f[..|f| - 1], None)
  {
    var g := f[..|f| - 1];
    forall i | 0 <= i < |g| ensures Get(mem, g[i], None) == Prior(g, None, i) {
      assert Get(mem, f[i], None) == Prior(f, None, i);
    }
  }

  /** A head at a block boundary is where the anchor points. */
  lemma AnchorPoints(base: nat, last: nat, bs: nat)
    requires bs > 0 && last >= base
    ensures (last - base) % bs == 0 <==> last == base + (last - base) / bs * bs
  {
  }

  /** What the sweep leaves of a small superblock in which it freed f. */
  ghost predicate Rebuilt(h: Heap, h': Heap, e: nat, f: seq<nat>)
    requires e < |h.desc| && h.desc[e].blockSize > 0
  {
    && |h'.desc| == |h.desc| && h'.desc[e] == h.desc[e] && MemSame(h, h', e, f) && IsChain(h'.mem, f, None) && NoDup(f)
    && var a := Get(h'.anchor, e, NO_ANCHOR);
    && a.count == |f|
    && (if f == [] then a.state == Full && a.avail == h.desc[e].maxcount
        else a.state == Partial && Starts(h.desc[e], e, f[|f| - 1], a.avail))
  }

  ghost predicate Starts(d: Desc, e: nat, last: nat, avail: nat)
    requires d.blockSize > 0
  {
    last >= e * SBSIZE && avail == (last - e * SBSIZE) / d.blockSize
  }

  lemma RecoveredRebuilt(h: Heap, h': Heap, e: nat, r: seq<nat>)
    requires IsSmall(h.desc, e) && r != [] && Recovered(h, h', e, r)
    ensures h.desc[e].blockSize > 0 && Rebuilt(h, h', e, FreedIn(h.desc, e, r))
  {
    hide FreedIn, MemSame, IsChain;
    if Sorted(FreedIn(h.desc, e, r)) { SortedNoDup(FreedIn(h.desc, e, r)); }
  }

  /** A free list that holds the dead blocks starts at a block boundary, so it is where the anchor points. */
  lemma RightWhenDead(h: Heap, h': Heap, ms: seq<nat>, e: nat, f: seq<nat>)
    requires e < |h.desc| && h.desc[e].blockSize > 0 && Rebuilt(h, h', e, f) && FreesDead(h.desc, ms, e, f)
    ensures SmallRight(h, h', ms, e)
    ensures f != [] ==> f[|f| - 1] >= e * SBSIZE && (f[|f| - 1] - e * SBSIZE) % h.desc[e].blockSize == 0
  {
    hide MemSame, IsChain, NoDup;
    if f != [] {
      assert f[|f| - 1] in f && Dead(h.desc, ms, e, f[|f| - 1]);
      AnchorPoints(e * SBSIZE, f[|f| - 1], h.desc[e].blockSize);
    }
    hide Dead;
    assert FreeListIs(h', h.desc[e], e, f);
  }

  lemma DeadWhenRight(h: Heap, h': Heap, ms: seq<nat>, e: nat, f: seq<nat>)
    requires e < |h.desc| && h.desc[e].blockSize > 0 && Rebuilt(h, h', e, f) && SmallRight(h, h', ms, e)
    requires f != [] ==> f[|f| - 1] >= e * SBSIZE && (f[|f| - 1] - e * SBSIZE) % h.desc[e].blockSize == 0
    ensures FreesDead(h.desc, ms, e, f)
  {
    hide MemSame, IsChain, NoDup, FreesDead;
    var g :| FreeListIs(h', h.desc[e], e, g) && MemSame(h, h', e, g) && FreesDead(h.desc, ms, e, g);
    if f != [] { AnchorPoints(e * SBSIZE, f[|f| - 1], h.desc[e].blockSize); }
    OneChain(h'.mem, f, g);
  }

  /** The sweep frees exactly the dead blocks of a small superblock when its marks are covered. */
  lemma CoveredFrees(desc: seq<Desc>, ms: seq<nat>, e: nat)
    requires e < |desc| && DescOk(desc, e) && IsSmall(desc, e) && Sorted(ms)
    ensures SmallCovered(desc, ms, e) <==> FreesDead(desc, ms, e, FreedIn(desc, e, MarksIn(ms, e)))
  {
    hide FreedIn, Covered, Sorted, MarksIn;
    MarksInSorted(ms, e);
    FreeListIffCovered(desc, e, MarksIn(ms, e));
    DeadHere(desc, ms, e, FreedIn(desc, e, MarksIn(ms, e)));
  }

  lemma SmallIsRight(h: Heap, h': Heap, ms: seq<nat>, e: nat)
    requires IsSmall(h.desc, e) && DescOk(h.desc, e) && Touched(ms, e) && Sorted(ms)
      && Recovered(h, h', e, MarksIn(ms, e))
    ensures h.desc[e].blockSize > 0
    ensures SmallCovered(h.desc, ms, e) <==> Aligned(h.desc, ms, e) && SmallRight(h, h', ms, e)
  {
    hide FreedIn, Sorted, Touched, MarksIn, SmallRight, Rebuilt, SmallCovered, FreesDead, Recovered;
    TouchedIn(ms, e);
    RecoveredRebuilt(h, h', e, MarksIn(ms, e));
    CoveredFrees(h.desc, ms, e);
    var f := FreedIn(h.desc, e, MarksIn(ms, e));
    if FreesDead(h.desc, ms, e, f) { RightWhenDead(h, h', ms, e, f); }
    if Aligned(h.desc, ms, e) && SmallRight(h, h', ms, e) { DeadWhenRight(h, h', ms, e, f); }
  }

  lemma TouchedIn(ms: seq<nat>, e: nat)
    ensures Touched(ms, e) <==> MarksIn(ms, e) != []
  {
    hide SbOf;
    if Touched(ms, e) { var m :| m in ms && SbOf(m) == e; assert m in MarksIn(ms, e); }
    if MarksIn(ms, e) != [] { assert MarksIn(ms, e)[0] in MarksIn(ms, e); }
  }

  // ---- the whole heap ----

  ghost predicate Ready(h: Heap, ms: seq<nat>) { WellFormed(h.desc) && |h.desc| > 0 && Marks(h.desc, ms) && Cleared(h) }

  /** What the sweep leaves when no mark is jumped over. */
  ghost predicate Swept(h: Heap, h': Heap, ms: seq<nat>) {
    && |h'.desc| == |h.desc|
    && (forall e: nat :: e < |h.desc| && !Skipped(h.desc, ms, 1, e) ==> Recovered(h, h', e, MarksIn(ms, e)))
    && (forall e: nat :: e < |h.desc| && Skipped(h.desc, ms, 1, e) ==> SameAt(h, h', e))
    && AvailOk(h, h', ms) && forall sc: nat :: PartialOk(h, h', ms, sc)
  }

  lemma SweepSwept(h: Heap, ms: seq<nat>)
    requires Ready(h, ms)
    ensures OkFrom(h.desc, 1) && (SweepFrom(h, 1, ms).1 == [] <==> NoneSkipped(h.desc, ms, 1))
    ensures NoneSkipped(h.desc, ms, 1) ==> Swept(h, SweepFrom(h, 1, ms).0, ms)
  {
    hide Recovered, SameAt, AvailOk, PartialOk, NoneSkipped, Skipped, SweepFrom, MarksIn;
    SweepOutcome(h, ms);
    if NoneSkipped(h.desc, ms, 1) {
      var h' := SweepFrom(h, 1, ms).0;
      LengthKept(h, h', ms);
    }
  }

  lemma LengthKept(h: Heap, h': Heap, ms: seq<nat>)
    requires |h.desc| > 0
    requires forall e: nat :: e < |h.desc| && Skipped(h.desc, ms, 1, e) ==> SameAt(h, h', e)
    ensures |h'.desc| == |h.desc|
  {
    assert Skipped(h.desc, ms, 1, 0);
  }

  /** A mark is never in a superblock that is jumped over. */
  lemma TouchedNotSkipped(desc: seq<Desc>, ms: seq<nat>, e: nat)
    requires NoneSkipped(desc, ms, 1) && Touched(ms, e)
    ensures !Skipped(desc, ms, 1, e)
  {
    hide Skipped, SbOf;
  }

  lemma LargeKept(h: Heap, h': Heap, ms: seq<nat>, e: nat)
    requires WellFormed(h.desc) && Swept(h, h', ms) && NoneSkipped(h.desc, ms, 1) && IsLarge(h.desc, e)
      && Touched(ms, e)
    ensures LargeRight(h, h', e)
  {
    hide Skipped, NoneSkipped, AvailOk, PartialOk, FreedIn, MarksIn, IsChain, Sorted;
    TouchedNotSkipped(h.desc, ms, e);
    TouchedIn(ms, e);
    assert Recovered(h, h', e, MarksIn(ms, e));
    forall a | Spans(h.desc, e, SbOf(a)) ensures Get(h'.mem, a, None) == Get(h.mem, a, None) {
      if SbOf(a) != e {
        TailSkipped(h.desc, ms, e, SbOf(a));
        assert DescOk(h.desc, e);
        assert SameAt(h, h', SbOf(a));
      }
    }
  }

  lemma TailSkipped(desc: seq<Desc>, ms: seq<nat>, e: nat, x: nat)
    requires IsLarge(desc, e) && Touched(ms, e) && Spans(desc, e, x) && x != e && !InUse(desc, 0)
    ensures Skipped(desc, ms, 1, x)
  {
    assert Shadows(desc, ms, e, x);
  }

  lemma WipedOrKept(h: Heap, h': Heap, ms: seq<nat>, x: nat)
    requires Swept(h, h', ms) && x < |h.desc| && !Skipped(h.desc, ms, 1, x)
    ensures !Kept(h.desc, ms, x) ==> h'.desc[x] == BLANK
    ensures Kept(h.desc, ms, x) ==> h'.desc[x] == h.desc[x]
  {
    hide Skipped, AvailOk, PartialOk, FreedIn, MarksIn, IsChain, Sorted, MemSame, Touched;
    TouchedIn(ms, x);
    assert Recovered(h, h', x, MarksIn(ms, x));
  }

  lemma AvailIsRight(h: Heap, h': Heap, ms: seq<nat>)
    requires Ready(h, ms) && Fit(h.desc, ms) && AvailOk(h, h', ms)
    ensures AvailHolds(h, h', ms)
  {
    hide Fit, Kept, IsList, HoldsLive;
    var l :| IsList(h'.nextFree, h'.avail, l) && AvailRight(h, ms, l);
    forall x: nat ensures x in l <==> 1 <= x < |h.desc| && !HoldsLive(h.desc, ms, x) {
      if x >= 1 { FitHolds(h.desc, ms, x); }
    }
    assert FreeSbs(h.desc, ms, l);
  }

  lemma PartialIsRight(h: Heap, h': Heap, ms: seq<nat>, sc: nat)
    requires Ready(h, ms) && Fit(h.desc, ms) && NoneSkipped(h.desc, ms, 1) && PartialOk(h, h', ms, sc)
    ensures PartialHolds(h, h', ms, sc)
  {
    hide NoneSkipped, Skipped, IsList, Touched, Dead, Fit;
    var l :| IsList(h'.nextPartial, Get(h'.partial, sc, None), l) && PartialRight(h, ms, sc, l);
    forall e: nat
      ensures e in l <==> IsSmall(h.desc, e) && h.desc[e].heap == Some(sc) && Touched(ms, e) && HasDead(h.desc, ms, e)
    {
      JoinsIsRight(h.desc, ms, e, sc);
    }
    assert PartlyFree(h.desc, ms, sc, l);
  }

  lemma JoinsIsRight(desc: seq<Desc>, ms: seq<nat>, e: nat, sc: nat)
    requires WellFormed(desc) && Marks(desc, ms) && Fit(desc, ms) && NoneSkipped(desc, ms, 1)
    ensures !Skipped(desc, ms, 1, e) && Joins(desc, e, MarksIn(ms, e), sc) <==>
            IsSmall(desc, e) && desc[e].heap == Some(sc) && Touched(ms, e) && HasDead(desc, ms, e)
  {
    hide NoneSkipped, Skipped, Touched, Dead, FreedIn, MarksIn, SmallCovered, Sorted;
    TouchedIn(ms, e);
    if IsSmall(desc, e) && Touched(ms, e) {
      assert DescOk(desc, e) && SmallCovered(desc, ms, e);
      TouchedNotSkipped(desc, ms, e);
      CoveredFrees(desc, ms, e);
      var f := FreedIn(desc, e, MarksIn(ms, e));
      if f != [] { assert Dead(desc, ms, e, f[0]) by { assert f[0] in f; } }
    }
  }

  lemma LargeCounts(desc: seq<Desc>, e: nat)
    requires WellFormed(desc) && IsLarge(desc, e)
    ensures desc[e].maxcount == 1
  {
    assert DescOk(desc, e);
  }

  lemma FitAsserts(h: Heap, h': Heap, ms: seq<nat>, e: nat)
    requires Ready(h, ms) && Fit(h.desc, ms) && Swept(h, h', ms) && NoneSkipped(h.desc, ms, 1)
    requires IsSmall(h.desc, e) && Touched(ms, e)
    ensures h.desc[e].blockSize > 0 && Headed(h.desc, ms, e) && Aligned(h.desc, ms, e) && SmallRight(h, h', ms, e)
  {
    hide Skipped, NoneSkipped, Recovered, SameAt, Touched, Aligned, SmallRight, SmallCovered, Hidden, FreedIn;
    TouchedNotSkipped(h.desc, ms, e);
    assert SmallCovered(h.desc, ms, e);
    SmallIsRight(h, h', ms, e);
  }

  lemma FitWipes(h: Heap, h': Heap, ms: seq<nat>, x: nat)
    requires Ready(h, ms) && Fit(h.desc, ms) && Swept(h, h', ms) && 1 <= x < |h.desc| && !HoldsLive(h.desc, ms, x)
    ensures h'.desc[x] == BLANK
  {
    hide Ready, Fit, Swept, HoldsLive, Kept, Skipped;
    assert WellFormed(h.desc) by { ReadyFacts(h, ms); }
    FitHolds(h.desc, ms, x);
    assert |h'.desc| == |h.desc| by { SweptLength(h, h', ms); }
    WipedOrKept(h, h', ms, x);
  }

  lemma ReadyFacts(h: Heap, ms: seq<nat>)
    requires Ready(h, ms)
    ensures WellFormed(h.desc)
  {
    hide WellFormed;
  }

  lemma SweptLength(h: Heap, h': Heap, ms: seq<nat>)
    requires Swept(h, h', ms)
    ensures |h'.desc| == |h.desc|
  {
    hide Skipped, Recovered, SameAt, AvailOk, PartialOk;
  }

  lemma FitIsRight(h: Heap, ms: seq<nat>)
    requires Ready(h, ms) && Fit(h.desc, ms)
    ensures OkFrom(h.desc, 1) && AssertionsHold(h, ms) && Right(h, SweepFrom(h, 1, ms).0, ms)
  {
    hide SweepFrom, Skipped, NoneSkipped, Recovered, SameAt, LargeRight, SmallRight, LargeLive, HoldsLive, Touched,
         Aligned, Headed, AvailHolds, PartialHolds, SmallCovered, Hidden, WellFormed, OkFrom, Fit;
    SweepSwept(h, ms);
    FitSkipsNone(h.desc, ms);
    var h' := SweepFrom(h, 1, ms).0;
    forall e: nat | LargeLive(h.desc, ms, e) ensures LargeRight(h, h', e) {
      FitLarge(h.desc, ms, e);
      LargeKept(h, h', ms, e);
    }
    forall e: nat | IsLarge(h.desc, e) ensures h.desc[e].maxcount == 1 { LargeCounts(h.desc, e); }
    forall e: nat | IsSmall(h.desc, e) && Touched(ms, e)
      ensures h.desc[e].blockSize > 0 && Headed(h.desc, ms, e) && Aligned(h.desc, ms, e) && SmallRight(h, h', ms, e)
    {
      FitAsserts(h, h', ms, e);
    }
    forall x: nat | 1 <= x < |h.desc| && !HoldsLive(h.desc, ms, x) ensures h'.desc[x] == BLANK {
      FitWipes(h, h', ms, x);
    }
    AvailIsRight(h, h', ms);
    forall sc: nat ensures PartialHolds(h, h', ms, sc) { PartialIsRight(h, h', ms, sc); }
  }

  // ---- and the other way round ----

  lemma HeadMarked(h: Heap, h': Heap, ms: seq<nat>, e: nat)
    requires Ready(h, ms) && Swept(h, h', ms) && NoneSkipped(h.desc, ms, 1) && Right(h, h', ms)
      && LargeLive(h.desc, ms, e)
    ensures Touched(ms, e)
  {
    hide NoneSkipped, Recovered, SameAt, SmallRight, Touched, AvailHolds, PartialHolds, AvailOk, PartialOk;
    if !Touched(ms, e) {
      assert LargeRight(h, h', e) && e != 0;
      forall x: nat ensures !Shadows(h.desc, ms, x, e) { assert IsLarge(h.desc, x) ==> Alone(h.desc, x); }
      WipedOrKept(h, h', ms, e);
    }
  }

  lemma RightIsFit(h: Heap, ms: seq<nat>)
    requires Ready(h, ms) && OkFrom(h.desc, 1) && AssertionsHold(h, ms) && Right(h, SweepFrom(h, 1, ms).0, ms)
    ensures Fit(h.desc, ms)
  {
    SweepSwept(h, ms);
    var h' := SweepFrom(h, 1, ms).0;
    hide SweepFrom, Recovered, SameAt, LargeRight, SmallRight, HoldsLive, Touched, Aligned, AvailHolds, PartialHolds,
         SmallCovered, AvailOk, PartialOk, MarksIn;
    forall m | m in ms ensures !Hidden(h.desc, m) { NotHidden(h, h', ms, m); }
    forall e: nat | IsSmall(h.desc, e) ensures SmallCovered(h.desc, ms, e) {
      if Touched(ms, e) {
        TouchedNotSkipped(h.desc, ms, e);
        SmallIsRight(h, h', ms, e);
      } else {
        assert DescOk(h.desc, e);
        UntouchedCovered(h.desc, ms, e);
      }
    }
  }

  lemma NotHidden(h: Heap, h': Heap, ms: seq<nat>, m: nat)
    requires Ready(h, ms) && Swept(h, h', ms) && NoneSkipped(h.desc, ms, 1) && Right(h, h', ms) && m in ms
    ensures !Hidden(h.desc, m)
  {
    hide Recovered, SameAt, LargeRight, SmallRight, HoldsLive, Touched, AvailHolds, PartialHolds, AvailOk, PartialOk,
      Right, Swept, SbOf;
    assert !Skipped(h.desc, ms, 1, SbOf(m));
    forall e: nat ensures !(IsLarge(h.desc, e) && e < SbOf(m) && Spans(h.desc, e, SbOf(m))) {
      if IsLarge(h.desc, e) && e < SbOf(m) && Spans(h.desc, e, SbOf(m)) {
        assert m in ms && LargeLive(h.desc, ms, e);
        HeadMarked(h, h', ms, e);
        TailSkipped(h.desc, ms, e, SbOf(m));
      }
    }
  }

  lemma UntouchedCovered(desc: seq<Desc>, ms: seq<nat>, e: nat)
    requires e < |desc| && DescOk(desc, e) && IsSmall(desc, e) && !Touched(ms, e)
    ensures SmallCovered(desc, ms, e)
  {
    TouchedIn(ms, e);
    assert Relative(MarksIn(ms, e), e) == [];
  }

  /**
   * Recovery runs through and is right, whatever the memory holds, exactly when no mark is hidden from
   * the sweep and the marks in every small superblock are covered.
   */
  lemma RecoveryIff(h: Heap, ms: seq<nat>)
    requires WellFormed(h.desc) && |h.desc| > 0 && Marks(h.desc, ms) && Cleared(h)
    ensures OkFrom(h.desc, 1)
    ensures AssertionsHold(h, ms) && Right(h, SweepFrom(h, 1, ms).0, ms) <==> Fit(h.desc, ms)
  {
    SweepSwept(h, ms);
    hide AssertionsHold, Right, Fit, WellFormed, OkFrom, Cleared, Marks;
    if Fit(h.desc, ms) { FitIsRight(h, ms); }
    if AssertionsHold(h, ms) && Right(h, SweepFrom(h, 1, ms).0, ms) { RightIsFit(h, ms); }
  }

  /** A large block that is pointed at only behind its head is lost, though the sweep runs through. */
  lemma MiddlePointerLosesBlock(h: Heap)
    requires h.desc == [BLANK, Desc(Some(0), Some(SBSIZE), 2 * SBSIZE, 1), BLANK]
    ensures var ms := [2 * SBSIZE + 8];
      && WellFormed(h.desc) && Marks(h.desc, ms) && LargeLive(h.desc, ms, 1) && OkFrom(h.desc, 1)
      && SweepFrom(h, 1, ms).1 == [] && SweepFrom(h, 1, ms).0.desc == [BLANK, BLANK, BLANK]
  {
    var ms := [2 * SBSIZE + 8];
    assert ms[0] in ms && Spans(h.desc, 1, SbOf(ms[0]));
    assert InSb(ms, 1) == 0 && ms[..0] == [] && ms[0..] == ms;
    OkStays(h, 1, []);
    var h1 := SweepOne(h, 1, []);
    SweepUnroll(h, 1, ms);
    assert InSb(ms, 2) == 1 && ms[..1] == ms && ms[1..] == [];
    SweepUnroll(h1, 2, ms);
    var h2 := SweepOne(h1, 2, ms);
    SweepUnroll(h2, 3, []);
  }
}
