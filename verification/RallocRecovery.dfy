/**
 * What Ralloc's recovery sweep does to the metadata, superblock by superblock, as a function of the
 * sorted marked addresses, and what that amounts to.  Addresses count bytes from the start of the
 * superblock region, which is aligned to the superblock size.
 */
module RallocRecovery {
  import opened Common
  import opened CountedStack
  import opened RallocMachine
  import opened RallocSweep

  const SBSIZE := 65536

  /** The persistent fields of a descriptor. */
  datatype Desc = Desc(heap: Option<nat>, superblock: Option<nat>, blockSize: nat, maxcount: nat)

  const BLANK := Desc(None, None, 0, 0)

  /** Descriptors (persistent and transient fields), memory words, and the list heads. */
  datatype Heap = Heap(
    desc: seq<Desc>,
    nextFree: map<nat, Option<nat>>, nextPartial: map<nat, Option<nat>>, anchor: map<nat, Anchor>,
    mem: map<nat, Option<nat>>,
    avail: Option<nat>, partial: map<nat, Option<nat>>)

  predicate InUse(desc: seq<Desc>, d: nat) {
    d < |desc| && desc[d].heap.Some? && desc[d].superblock == Some(d * SBSIZE)
  }

  predicate IsLarge(desc: seq<Desc>, d: nat) { InUse(desc, d) && desc[d].heap == Some(0) }

  predicate IsSmall(desc: seq<Desc>, d: nat) { InUse(desc, d) && desc[d].heap != Some(0) }

  /**
   * What allocation leaves in the persistent fields of a superblock in use: a large block spans whole
   * superblocks of the region and is alone in them, a small superblock holds as many blocks as fit,
   * and the first is never used.
   */
  ghost predicate WellFormed(desc: seq<Desc>) {
    && !InUse(desc, 0)
    && (forall d: nat :: d < |desc| ==> DescOk(desc, d))
    && forall d: nat :: IsLarge(desc, d) ==> Alone(desc, d)
  }

  /** No superblock behind d in the span of its block is in use. */
  ghost predicate Alone(desc: seq<Desc>, d: nat) {
    forall x: nat :: d < |desc| && d < x < d + SpanOf(desc[d].blockSize) ==> !InUse(desc, x)
  }

  predicate DescOk(desc: seq<Desc>, d: nat)
    requires d < |desc|
  {
    && (IsLarge(desc, d) ==>
      && SpanOf(desc[d].blockSize) > 0 && desc[d].blockSize == SpanOf(desc[d].blockSize) * SBSIZE
      && d + SpanOf(desc[d].blockSize) <= |desc| && desc[d].maxcount == 1)
    && (IsSmall(desc, d) ==> 0 < desc[d].blockSize <= SBSIZE && desc[d].maxcount == SBSIZE / desc[d].blockSize)
  }

  function SpanOf(size: nat): nat { size / SBSIZE }

  function SbOf(m: nat): nat { m / SBSIZE }

  /** How many of the marks at the cursor lie in superblock d. */
  function InSb(ms: seq<nat>, d: nat): (k: nat)
    ensures k <= |ms|
    ensures forall i :: 0 <= i < k ==> SbOf(ms[i]) == d
    ensures k < |ms| ==> SbOf(ms[k]) != d
  {
    if ms != [] && SbOf(ms[0]) == d then 1 + InSb(ms[1..], d) else 0
  }

  /** Links the chunks f in front of a free list, one after the other. */
  function LinkUp(mem: map<nat, Option<nat>>, f: seq<nat>, head: Option<nat>): map<nat, Option<nat>>
    decreases |f|
  {
    if f == [] then mem else LinkUp(mem[f[0] := head], f[1..], Some(f[0]))
  }

  function LastOr(f: seq<nat>, head: Option<nat>): Option<nat> { if f == [] then head else Some(f[|f| - 1]) }

  function EndOf(desc: seq<Desc>, d: nat): nat
    requires d < |desc|
  {
    d * SBSIZE + desc[d].maxcount * desc[d].blockSize
  }

  /** The chunks freed in small superblock d when the cursor finds the marks ms in it. */
  function FreedIn(desc: seq<Desc>, d: nat, ms: seq<nat>): seq<nat>
    requires d < |desc| && desc[d].blockSize > 0
  {
    Freed(ms, d * SBSIZE, desc[d].blockSize, EndOf(desc, d))
  }

  /** The anchor recovery gives a small superblock. */
  function NewAnchor(desc: seq<Desc>, d: nat, f: seq<nat>): Anchor
    requires d < |desc| && desc[d].blockSize > 0
    requires f != [] ==> f[|f| - 1] >= d * SBSIZE
  {
    if f == [] then Anchor(desc[d].maxcount, 0, Full)
    else Anchor((f[|f| - 1] - d * SBSIZE) / desc[d].blockSize, |f|, Partial)
  }

  lemma {:induction false} FreedLow(ms: seq<nat>, p: nat, bs: nat, end: nat, lo: nat)
    requires bs > 0 && lo <= p && forall m :: m in ms ==> m >= lo
    ensures forall a :: a in Freed(ms, p, bs, end) ==> a >= lo
    decreases |ms|
  {
    if ms != [] {
      assert ms[0] in ms && forall m :: m in ms[1..] ==> m in ms;
      FreedLow(ms[1..], ms[0] + bs, bs, end, lo);
    }
  }

  lemma {:induction false} FreedHigh(ms: seq<nat>, p: nat, bs: nat, end: nat, hi: nat)
    requires bs > 0 && end <= hi && forall m :: m in ms ==> m <= hi
    ensures forall a :: a in Freed(ms, p, bs, end) ==> a < hi
    decreases |ms|
  {
    if ms != [] {
      assert ms[0] in ms && forall m :: m in ms[1..] ==> m in ms;
      FreedHigh(ms[1..], ms[0] + bs, bs, end, hi);
    }
  }

  lemma SmallEnd(desc: seq<Desc>, d: nat)
    requires d < |desc| && DescOk(desc, d) && IsSmall(desc, d)
    ensures EndOf(desc, d) <= (d + 1) * SBSIZE < EndOf(desc, d) + desc[d].blockSize
    ensures (EndOf(desc, d) - d * SBSIZE) % desc[d].blockSize == 0
  {
    ModOfMultiple(desc[d].maxcount, desc[d].blockSize);
  }

  lemma FreedRange(desc: seq<Desc>, d: nat, ms: seq<nat>)
    requires d < |desc| && DescOk(desc, d) && IsSmall(desc, d) && forall m :: m in ms ==> SbOf(m) == d
    ensures forall a :: a in FreedIn(desc, d, ms) ==> SbOf(a) == d
  {
    SmallEnd(desc, d);
    FreedLow(ms, d * SBSIZE, desc[d].blockSize, EndOf(desc, d), d * SBSIZE);
    FreedHigh(ms, d * SBSIZE, desc[d].blockSize, EndOf(desc, d), (d + 1) * SBSIZE);
  }

  /** The sweep of superblock d, when the cursor finds the marks ms in it. */
  function SweepOne(h: Heap, d: nat, ms: seq<nat>): (r: Heap)
    requires d < |h.desc| && DescOk(h.desc, d) && forall m :: m in ms ==> SbOf(m) == d
    ensures |r.desc| == |h.desc| && forall e: nat :: e < |h.desc| && e != d ==> r.desc[e] == h.desc[e]
  {
    if ms == [] || !InUse(h.desc, d) then
      h.(desc := h.desc[d := BLANK], nextFree := h.nextFree[d := h.avail], nextPartial := h.nextPartial[d := None],
         anchor := h.anchor[d := NO_ANCHOR], avail := Some(d))
    else if IsLarge(h.desc, d) then
      h.(nextFree := h.nextFree[d := None], nextPartial := h.nextPartial[d := None],
        anchor := h.anchor[d := Anchor(0, 0, Full)])
    else
      var f := FreedIn(h.desc, d, ms);
      var sc := h.desc[d].heap.value;
      assert f != [] ==> f[|f| - 1] >= d * SBSIZE by { FreedRange(h.desc, d, ms); assert f != [] ==> f[|f| - 1] in f; }
      var h' := h.(mem := LinkUp(h.mem, f, None), nextFree := h.nextFree[d := None],
        anchor := h.anchor[d := NewAnchor(h.desc, d, f)]);
      if f == [] then h'.(nextPartial := h.nextPartial[d := None])
      else h'.(nextPartial := h.nextPartial[d := Get(h.partial, sc, None)], partial := h.partial[sc := Some(d)])
  }

  /** Where the sweep goes after superblock d. */
  function After(desc: seq<Desc>, d: nat, ms: seq<nat>): nat
    requires d < |desc|
  {
    if ms != [] && IsLarge(desc, d) then d + SpanOf(desc[d].blockSize) else d + 1
  }

  ghost predicate OkFrom(desc: seq<Desc>, d: nat) {
    d <= |desc| && forall e: nat :: d <= e < |desc| ==> DescOk(desc, e)
  }

  lemma OkStays(h: Heap, d: nat, ms: seq<nat>)
    requires d < |h.desc| && OkFrom(h.desc, d) && forall m :: m in ms ==> SbOf(m) == d
    ensures OkFrom(SweepOne(h, d, ms).desc, After(h.desc, d, ms))
  {
    var r := SweepOne(h, d, ms);
    assert DescOk(h.desc, d);
    forall e: nat | After(h.desc, d, ms) <= e < |h.desc| ensures DescOk(r.desc, e) {
      assert DescOk(h.desc, e) && r.desc[e] == h.desc[e];
    }
  }

  /** The sweep from superblock d on, with the marks the cursor has not passed; also returns those it never passes. */
  function SweepFrom(h: Heap, d: nat, ms: seq<nat>): (Heap, seq<nat>)
    requires OkFrom(h.desc, d)
    decreases |h.desc| - d
  {
    if d == |h.desc| then (h, ms)
    else
      var k := InSb(ms, d);
      OkStays(h, d, ms[..k]);
      SweepFrom(SweepOne(h, d, ms[..k]), After(h.desc, d, ms[..k]), ms[k..])
  }

  lemma SweepUnroll(h: Heap, d: nat, ms: seq<nat>)
    requires OkFrom(h.desc, d)
    ensures d == |h.desc| ==> SweepFrom(h, d, ms) == (h, ms)
    ensures d < |h.desc| ==>
              var k := InSb(ms, d);
              var h', d' := SweepOne(h, d, ms[..k]), After(h.desc, d, ms[..k]);
              OkFrom(h'.desc, d') && d < d' && SweepFrom(h, d, ms) == SweepFrom(h', d', ms[k..])
  {
    if d < |h.desc| {
      assert DescOk(h.desc, d);
      OkStays(h, d, ms[..InSb(ms, d)]);
    }
  }

  // ---- when the cursor reaches every mark ----

  ghost predicate Touched(ms: seq<nat>, e: nat) { exists m :: m in ms && SbOf(m) == e }

  /** Superblock e survives recovery: it is in use and holds a marked address. */
  ghost predicate Kept(desc: seq<Desc>, ms: seq<nat>, e: nat) { InUse(desc, e) && Touched(ms, e) }

  /** x is a later superblock of the large block that starts at e and survives. */
  ghost predicate Shadows(desc: seq<Desc>, ms: seq<nat>, e: nat, x: nat) {
    Kept(desc, ms, e) && IsLarge(desc, e) && e < x < e + SpanOf(desc[e].blockSize)
  }

  /** The sweep from d on jumps over superblock x. */
  ghost predicate Skipped(desc: seq<Desc>, ms: seq<nat>, d: nat, x: nat) {
    x < d || exists e: nat :: d <= e && Shadows(desc, ms, e, x)
  }

  ghost predicate NoneSkipped(desc: seq<Desc>, ms: seq<nat>, d: nat) {
    forall m :: m in ms ==> !Skipped(desc, ms, d, SbOf(m))
  }

  ghost predicate Marks(desc: seq<Desc>, ms: seq<nat>) { Sorted(ms) && forall m :: m in ms ==> SbOf(m) < |desc| }

  /** What is left for the rest of the sweep. */
  lemma RestOfMarks(desc: seq<Desc>, ms: seq<nat>, d: nat)
    requires Marks(desc, ms)
    ensures var k := InSb(ms, d); Marks(desc, ms[k..])
    ensures var k := InSb(ms, d); forall m :: m in ms <==> m in ms[..k] || m in ms[k..]
    ensures var k := InSb(ms, d); forall e :: e != d ==> (Touched(ms, e) <==> Touched(ms[k..], e))
    ensures (forall m :: m in ms ==> SbOf(m) >= d) ==>
      var k := InSb(ms, d); (Touched(ms, d) <==> k > 0) && forall m :: m in ms[k..] ==> SbOf(m) > d
  {
    hide InSb, SbOf;
    var k := InSb(ms, d);
    assert ms == ms[..k] + ms[k..];
    RestSorted(ms, k);
    forall e | e != d ensures Touched(ms, e) <==> Touched(ms[k..], e) { RestTouched(ms, d, e); }
    if forall m :: m in ms ==> SbOf(m) >= d { RestAbove(ms, d); }
  }

  lemma RestSorted(ms: seq<nat>, k: nat)
    requires Sorted(ms) && k <= |ms|
    ensures Sorted(ms[k..])
  {
  }

  lemma RestTouched(ms: seq<nat>, d: nat, e: nat)
    requires e != d
    ensures Touched(ms, e) <==> Touched(ms[InSb(ms, d)..], e)
  {
    hide InSb, SbOf;
    var k := InSb(ms, d);
    if Touched(ms, e) {
      var m :| m in ms && SbOf(m) == e;
      var i :| 0 <= i < |ms| && ms[i] == m;
      assert i >= k;
      assert ms[k..][i - k] == m;
    }
  }

  lemma RestAbove(ms: seq<nat>, d: nat)
    requires Sorted(ms) && forall m :: m in ms ==> SbOf(m) >= d
    ensures var k := InSb(ms, d); (Touched(ms, d) <==> k > 0) && forall m :: m in ms[k..] ==> SbOf(m) > d
  {
    var k := InSb(ms, d);
    hide InSb;
    forall m | m in ms[k..] ensures SbOf(m) > d {
      var i :| 0 <= i < |ms[k..]| && ms[k..][i] == m;
      assert ms[k] in ms && ms[k] <= ms[k + i];
    }
    if k > 0 { assert ms[0] in ms && ms[..k][0] == ms[0]; }
    else { assert ms[k..] == ms; }
  }

  /** One step of the sweep keeps the question of whether a mark is skipped. */
  lemma SkippedStep(desc: seq<Desc>, desc': seq<Desc>, ms: seq<nat>, d: nat)
    requires Marks(desc, ms) && d < |desc| && OkFrom(desc, d) && NoneSkipped(desc, ms, d)
    requires |desc'| == |desc| && forall e: nat :: e < |desc| && e != d ==> desc'[e] == desc[e]
    ensures var k := InSb(ms, d); NoneSkipped(desc', ms[k..], After(desc, d, ms[..k]))
    ensures var k := InSb(ms, d); forall x: nat :: d < x < After(desc, d, ms[..k]) ==> Skipped(desc, ms, d, x)
    ensures
      var k := InSb(ms, d);
      forall x: nat :: x >= After(desc, d, ms[..k]) ==>
        (Skipped(desc, ms, d, x) <==> Skipped(desc', ms[k..], After(desc, d, ms[..k]), x))
  {
    var k := InSb(ms, d);
    var d', rest := After(desc, d, ms[..k]), ms[k..];
    RestOfMarks(desc, ms, d);
    assert DescOk(desc, d);
    NoneBehind(desc, ms, d);
    hide InSb, SbOf, Touched;
    forall e: nat, x: nat | e >= d' ensures Shadows(desc, ms, e, x) <==> Shadows(desc', rest, e, x) { }
    forall x: nat | d < x < d' ensures Skipped(desc, ms, d, x) { assert Shadows(desc, ms, d, x); }
    forall x: nat | x >= d' ensures Skipped(desc, ms, d, x) <==> Skipped(desc', rest, d', x) {
      if e: nat :| d <= e && Shadows(desc, ms, e, x) { assert e >= d'; }
    }
    forall m | m in rest ensures !Skipped(desc', rest, d', SbOf(m)) {
      assert m in ms && !Skipped(desc, ms, d, SbOf(m));
    }
  }

  /** The other way round: a mark skipped now is skipped in the rest of the sweep. */
  lemma SkippedStepBack(desc: seq<Desc>, desc': seq<Desc>, ms: seq<nat>, d: nat)
    requires Marks(desc, ms) && d < |desc| && OkFrom(desc, d)
    requires |desc'| == |desc| && forall e: nat :: e < |desc| && e != d ==> desc'[e] == desc[e]
    requires var k := InSb(ms, d); NoneSkipped(desc', ms[k..], After(desc, d, ms[..k]))
    ensures NoneSkipped(desc, ms, d)
  {
    var k := InSb(ms, d);
    var d', rest := After(desc, d, ms[..k]), ms[k..];
    RestOfMarks(desc, ms, d);
    assert DescOk(desc, d);
    NoneBehind(desc', rest, d');
    hide InSb, SbOf, Touched, Shadows, After;
    forall m | m in ms ensures !Skipped(desc, ms, d, SbOf(m)) {
      if m in rest {
        assert !Skipped(desc', rest, d', SbOf(m));
        forall e: nat | d <= e ensures !Shadows(desc, ms, e, SbOf(m)) { NotShadowed(desc, desc', ms, d, e, SbOf(m)); }
      } else {
        forall e: nat | d <= e ensures !Shadows(desc, ms, e, SbOf(m)) { ShadowsAhead(desc, ms, e, SbOf(m)); }
      }
    }
  }

  lemma ShadowsAhead(desc: seq<Desc>, ms: seq<nat>, e: nat, x: nat)
    ensures Shadows(desc, ms, e, x) ==> e < x
  {
  }

  lemma NotShadowed(desc: seq<Desc>, desc': seq<Desc>, ms: seq<nat>, d: nat, e: nat, x: nat)
    requires Marks(desc, ms) && d < |desc| && OkFrom(desc, d) && d <= e
    requires |desc'| == |desc| && forall e: nat :: e < |desc| && e != d ==> desc'[e] == desc[e]
    requires
      var k := InSb(ms, d);
      var d' := After(desc, d, ms[..k]);
      NoneSkipped(desc', ms[k..], d') && d' <= x && !Shadows(desc', ms[k..], e, x)
    ensures !Shadows(desc, ms, e, x)
  {
    var k := InSb(ms, d);
    var d', rest := After(desc, d, ms[..k]), ms[k..];
    RestOfMarks(desc, ms, d);
    NoneBehind(desc', rest, d');
    assert DescOk(desc, d);
    hide InSb, SbOf, NoneSkipped;
    assert forall m :: m in ms ==> SbOf(m) >= d;
    assert e < d' ==> !Touched(rest, e);
  }

  /** The sweep passes every mark if and only if none lies in a superblock it jumps over. */
  lemma {:induction false} CursorFinishes(h: Heap, d: nat, ms: seq<nat>)
    requires Marks(h.desc, ms) && OkFrom(h.desc, d)
    ensures SweepFrom(h, d, ms).1 == [] <==> NoneSkipped(h.desc, ms, d)
    decreases |h.desc| - d
  {
    if d == |h.desc| {
      if ms != [] { assert ms[0] in ms && Skipped(h.desc, ms, d, SbOf(ms[0])); }
    } else {
      var k := InSb(ms, d);
      OkStays(h, d, ms[..k]);
      var h' := SweepOne(h, d, ms[..k]);
      RestOfMarks(h.desc, ms, d);
      CursorFinishes(h', After(h.desc, d, ms[..k]), ms[k..]);
      if NoneSkipped(h.desc, ms, d) { SkippedStep(h.desc, h'.desc, ms, d); }
      if NoneSkipped(h'.desc, ms[k..], After(h.desc, d, ms[..k])) { SkippedStepBack(h.desc, h'.desc, ms, d); }
    }
  }

  // ---- what becomes of each superblock ----

  /** The marks that lie in superblock e. */
  function MarksIn(ms: seq<nat>, e: nat): (r: seq<nat>)
    ensures forall m :: m in r <==> m in ms && SbOf(m) == e
  {
    if ms == [] then [] else (if SbOf(ms[0]) == e then [ms[0]] else []) + MarksIn(ms[1..], e)
  }

  lemma {:induction false} MarksInStep(ms: seq<nat>, k: nat, d: nat, e: nat)
    requires k <= |ms| && forall i :: 0 <= i < k ==> SbOf(ms[i]) == d
    ensures e == d ==> MarksIn(ms, e) == ms[..k] + MarksIn(ms[k..], e)
    ensures e != d ==> MarksIn(ms, e) == MarksIn(ms[k..], e)
  {
    hide SbOf, MarksIn;
    if k > 0 {
      MarksInStep(ms[1..], k - 1, d, e);
      MarksInHead(ms, e);
      assert ms[1..][k - 1..] == ms[k..];
      if e == d { Reassociate(ms, k, MarksIn(ms[k..], e)); }
    } else {
      assert ms[..k] == [] && ms[k..] == ms;
    }
  }

  lemma Reassociate(ms: seq<nat>, k: nat, r: seq<nat>)
    requires 0 < k <= |ms|
    ensures [ms[0]] + (ms[1..][..k - 1] + r) == ms[..k] + r
  {
    assert [ms[0]] + ms[1..][..k - 1] == ms[..k];
  }

  lemma MarksInHead(ms: seq<nat>, e: nat)
    requires ms != []
    ensures MarksIn(ms, e) == if SbOf(ms[0]) == e then [ms[0]] + MarksIn(ms[1..], e) else MarksIn(ms[1..], e)
  {
    hide SbOf;
  }

  lemma {:induction false} NoMarksIn(ms: seq<nat>, e: nat)
    requires forall m :: m in ms ==> SbOf(m) != e
    ensures MarksIn(ms, e) == []
  {
    if MarksIn(ms, e) != [] { assert MarksIn(ms, e)[0] in MarksIn(ms, e); }
  }

  /** h' agrees with h on superblock e and its memory. */
  ghost predicate SameAt(h: Heap, h': Heap, e: nat) {
    && e < |h.desc| == |h'.desc| && h'.desc[e] == h.desc[e]
    && Get(h'.anchor, e, NO_ANCHOR) == Get(h.anchor, e, NO_ANCHOR)
    && forall a :: SbOf(a) == e ==> Get(h'.mem, a, None) == Get(h.mem, a, None)
  }

  lemma {:induction false} LinkUpElsewhere(mem: map<nat, Option<nat>>, f: seq<nat>, head: Option<nat>, a: nat)
    requires a !in f
    ensures Get(LinkUp(mem, f, head), a, None) == Get(mem, a, None)
    decreases |f|
  {
    if f != [] { LinkUpElsewhere(mem[f[0] := head], f[1..], Some(f[0]), a); }
  }

  lemma SweepOneElsewhere(h: Heap, d: nat, ms: seq<nat>, e: nat)
    requires d < |h.desc| && DescOk(h.desc, d) && (forall m :: m in ms ==> SbOf(m) == d) && e < |h.desc| && e != d
    ensures SameAt(h, SweepOne(h, d, ms), e)
  {
    if ms != [] && IsSmall(h.desc, d) {
      var f := FreedIn(h.desc, d, ms);
      FreedRange(h.desc, d, ms);
      forall a | SbOf(a) == e ensures Get(SweepOne(h, d, ms).mem, a, None) == Get(h.mem, a, None) {
        LinkUpElsewhere(h.mem, f, None, a);
      }
    }
  }

  /** The rest of the sweep leaves a superblock behind it alone. */
  lemma {:induction false} SweepForward(h: Heap, d: nat, ms: seq<nat>, e: nat)
    requires OkFrom(h.desc, d) && e < |h.desc| && (e < d || Skipped(h.desc, ms, d, e))
    requires Marks(h.desc, ms) && NoneSkipped(h.desc, ms, d)
    ensures SameAt(h, SweepFrom(h, d, ms).0, e)
    decreases |h.desc| - d
  {
    if d < |h.desc| {
      var k := InSb(ms, d);
      OkStays(h, d, ms[..k]);
      var h' := SweepOne(h, d, ms[..k]);
      RestOfMarks(h.desc, ms, d);
      SkippedStep(h.desc, h'.desc, ms, d);
      assert e != d;
      SweepOneElsewhere(h, d, ms[..k], e);
      SweepForward(h', After(h.desc, d, ms[..k]), ms[k..], e);
    }
  }

  /** The free list of a superblock: each chunk points to the one freed before it. */
  ghost predicate IsChain(mem: map<nat, Option<nat>>, f: seq<nat>, head: Option<nat>) {
    forall i :: 0 <= i < |f| ==> Get(mem, f[i], None) == Prior(f, head, i)
  }

  function Prior(f: seq<nat>, head: Option<nat>, i: nat): Option<nat>
    requires i <= |f|
  {
    if i == 0 then head else Some(f[i - 1])
  }

  lemma {:induction false} LinkUpChain(mem: map<nat, Option<nat>>, f: seq<nat>, head: Option<nat>)
    requires Sorted(f)
    ensures IsChain(LinkUp(mem, f, head), f, head)
    decreases |f|
  {
    if f != [] {
      var mem', g := mem[f[0] := head], f[1..];
      LinkUpChain(mem', g, Some(f[0]));
      var r := LinkUp(mem', g, Some(f[0]));
      assert f[0] !in g;
      LinkUpElsewhere(mem', g, Some(f[0]), f[0]);
      forall i | 0 <= i < |f| ensures Get(r, f[i], None) == Prior(f, head, i) {
        if i > 0 { assert f[i] == g[i - 1] && Prior(g, Some(f[0]), i - 1) == Prior(f, head, i); }
      }
    }
  }

  /**
   * What recovery owes superblock e, whose marks are ms: without a mark or out of use its descriptor
   * is wiped; a large one is full; a small one keeps its fields, its anchor counts the freed chunks
   * and points to the last of them, the chunks are linked down to the first, and no other word of
   * the superblock changes.
   */
  ghost predicate Recovered(h: Heap, h': Heap, e: nat, ms: seq<nat>) {
    && e < |h.desc| == |h'.desc| && DescOk(h.desc, e) && (forall m :: m in ms ==> SbOf(m) == e)
    && var a := Get(h'.anchor, e, NO_ANCHOR);
    if ms == [] || !InUse(h.desc, e) then h'.desc[e] == BLANK && a == NO_ANCHOR && MemSame(h, h', e, [])
    else if IsLarge(h.desc, e) then h'.desc[e] == h.desc[e] && a == Anchor(0, 0, Full) && MemSame(h, h', e, [])
    else
      && h'.desc[e] == h.desc[e]
      && var f := FreedIn(h.desc, e, ms);
      && MemSame(h, h', e, f) && IsChain(h'.mem, f, None) && Sorted(f)
      && a.count == |f|
      && (if f == [] then a.state == Full && a.avail == h.desc[e].maxcount
          else
            && a.state == Partial && f[|f| - 1] >= e * SBSIZE
            && a.avail == (f[|f| - 1] - e * SBSIZE) / h.desc[e].blockSize)
  }

  ghost predicate MemSame(h: Heap, h': Heap, e: nat, f: seq<nat>) {
    forall a :: SbOf(a) == e && a !in f ==> Get(h'.mem, a, None) == Get(h.mem, a, None)
  }

  lemma SweepOneRecovers(h: Heap, d: nat, ms: seq<nat>)
    requires d < |h.desc| && DescOk(h.desc, d) && Sorted(ms) && forall m :: m in ms ==> SbOf(m) == d
    ensures Recovered(h, SweepOne(h, d, ms), d, ms)
  {
    if ms != [] && IsSmall(h.desc, d) {
      var f := FreedIn(h.desc, d, ms);
      FreedRange(h.desc, d, ms);
      FreedSorted(ms, d * SBSIZE, h.desc[d].blockSize, EndOf(h.desc, d));
      LinkUpChain(h.mem, f, None);
      forall a | SbOf(a) == d && a !in f ensures Get(SweepOne(h, d, ms).mem, a, None) == Get(h.mem, a, None) {
        LinkUpElsewhere(h.mem, f, None, a);
      }
      if f != [] { assert f[|f| - 1] in f; }
    }
  }

  /** Recovered depends on superblock e only. */
  lemma RecoveredStays(h: Heap, h1: Heap, h2: Heap, e: nat, ms: seq<nat>)
    requires Recovered(h, h1, e, ms) && SameAt(h1, h2, e)
    ensures Recovered(h, h2, e, ms)
  {
    if ms != [] && IsSmall(h.desc, e) {
      var f := FreedIn(h.desc, e, ms);
      FreedRange(h.desc, e, ms);
      forall i | 0 <= i < |f| ensures Get(h2.mem, f[i], None) == Prior(f, None, i) {
        assert f[i] in f;
        assert SbOf(f[i]) == e;
      }
    }
  }

  lemma RecoveredBefore(h0: Heap, h: Heap, h': Heap, e: nat, ms: seq<nat>)
    requires Recovered(h, h', e, ms) && SameAt(h0, h, e)
    ensures Recovered(h0, h', e, ms)
  {
    hide SbOf, FreedIn, MemSame, IsChain, Sorted, DescOk, InUse, IsLarge;
    SameFreed(h0.desc, h.desc, e, ms);
    forall f | MemSame(h, h', e, f) ensures MemSame(h0, h', e, f) { MemBefore(h0, h, h', e, f); }
  }

  lemma MemBefore(h0: Heap, h: Heap, h': Heap, e: nat, f: seq<nat>)
    requires MemSame(h, h', e, f) && SameAt(h0, h, e)
    ensures MemSame(h0, h', e, f)
  {
    hide SbOf;
  }

  lemma SameFreed(desc: seq<Desc>, desc': seq<Desc>, e: nat, ms: seq<nat>)
    requires e < |desc| == |desc'| && desc'[e] == desc[e]
    ensures desc[e].blockSize > 0 ==> FreedIn(desc', e, ms) == FreedIn(desc, e, ms)
    ensures DescOk(desc, e) && InUse(desc, e) ==> desc[e].blockSize > 0
    ensures (DescOk(desc, e) <==> DescOk(desc', e)) && (InUse(desc, e) <==> InUse(desc', e))
      && (IsLarge(desc, e) <==> IsLarge(desc', e))
  {
  }

  /** Every superblock the sweep does not jump over is recovered, by the marks it holds. */
  lemma {:induction false} SweepRecovers(h: Heap, d: nat, ms: seq<nat>, e: nat)
    requires OkFrom(h.desc, d) && d <= e < |h.desc| && !Skipped(h.desc, ms, d, e)
    requires Marks(h.desc, ms) && NoneSkipped(h.desc, ms, d)
    ensures Recovered(h, SweepFrom(h, d, ms).0, e, MarksIn(ms, e))
    decreases |h.desc| - d
  {
    hide Recovered, SameAt, SweepOne;
    var k := InSb(ms, d);
    var d', rest := After(h.desc, d, ms[..k]), ms[k..];
    OkStays(h, d, ms[..k]);
    var h' := SweepOne(h, d, ms[..k]);
    RestOfMarks(h.desc, ms, d);
    SkippedStep(h.desc, h'.desc, ms, d);
    MarksInStep(ms, k, d, e);
    if e == d {
      SweepRecoversHere(h, d, ms);
    } else {
      SweepRecovers(h', d', rest, e);
      SweepOneElsewhere(h, d, ms[..k], e);
      RecoveredBefore(h, h', SweepFrom(h', d', rest).0, e, MarksIn(ms, e));
    }
  }

  lemma SweepRecoversHere(h: Heap, d: nat, ms: seq<nat>)
    requires OkFrom(h.desc, d) && d < |h.desc| && Marks(h.desc, ms) && NoneSkipped(h.desc, ms, d)
    ensures Recovered(h, SweepFrom(h, d, ms).0, d, MarksIn(ms, d))
  {
    hide Recovered, SameAt, SweepOne;
    var k := InSb(ms, d);
    var d', rest := After(h.desc, d, ms[..k]), ms[k..];
    OkStays(h, d, ms[..k]);
    var h' := SweepOne(h, d, ms[..k]);
    RestOfMarks(h.desc, ms, d);
    SkippedStep(h.desc, h'.desc, ms, d);
    MarksHere(h.desc, d, ms);
    hide NoneSkipped, Skipped, MarksIn, OkFrom, After, InSb, Freed;
    SweepOneRecovers(h, d, ms[..k]);
    SweepForward(h', d', rest, d);
    RecoveredStays(h, h', SweepFrom(h', d', rest).0, d, ms[..k]);
  }

  lemma MarksHere(desc: seq<Desc>, d: nat, ms: seq<nat>)
    requires d < |desc| && Marks(desc, ms) && NoneSkipped(desc, ms, d)
    ensures
      var k := InSb(ms, d);
      MarksIn(ms, d) == ms[..k] && Sorted(ms[..k]) && forall m :: m in ms[..k] ==> SbOf(m) == d
  {
    var k := InSb(ms, d);
    NoneBehind(desc, ms, d);
    hide InSb, SbOf, NoneSkipped, MarksIn, Touched;
    RestOfMarks(desc, ms, d);
    MarksInStep(ms, k, d, d);
    NoMarksIn(ms[k..], d);
  }

  lemma NoneBehind(desc: seq<Desc>, ms: seq<nat>, d: nat)
    requires NoneSkipped(desc, ms, d)
    ensures forall m :: m in ms ==> SbOf(m) >= d
  {
    hide Shadows, SbOf;
    assert forall m :: m in ms ==> !Skipped(desc, ms, d, SbOf(m));
  }

  // ---- the lists ----

  /** The superblocks the sweep from d on retires, last one first. */
  ghost function Retired(desc: seq<Desc>, d: nat, ms: seq<nat>): seq<nat>
    requires OkFrom(desc, d)
    decreases |desc| - d
  {
    if d == |desc| then []
    else
      var k := InSb(ms, d);
      OkAfter(desc, d, ms[..k]);
      Retired(desc, After(desc, d, ms[..k]), ms[k..]) + if k == 0 || !InUse(desc, d) then [d] else []
  }

  lemma OkAfter(desc: seq<Desc>, d: nat, ms: seq<nat>)
    requires d < |desc| && OkFrom(desc, d)
    ensures d < After(desc, d, ms) && OkFrom(desc, After(desc, d, ms))
  {
    assert DescOk(desc, d);
  }

  /** Superblock e becomes the head of its class's partial list. */
  ghost predicate Joins(desc: seq<Desc>, e: nat, ms: seq<nat>, sc: nat) {
    ms != [] && e < |desc| && DescOk(desc, e) && IsSmall(desc, e) && desc[e].heap == Some(sc)
      && FreedIn(desc, e, ms) != []
  }

  /** The superblocks the sweep from d on puts on the partial list of class sc, last one first. */
  ghost function Joined(desc: seq<Desc>, d: nat, ms: seq<nat>, sc: nat): seq<nat>
    requires OkFrom(desc, d)
    decreases |desc| - d
  {
    if d == |desc| then []
    else
      var k := InSb(ms, d);
      OkAfter(desc, d, ms[..k]);
      Joined(desc, After(desc, d, ms[..k]), ms[k..], sc) + if Joins(desc, d, ms[..k], sc) then [d] else []
  }

  ghost predicate SameAhead(desc: seq<Desc>, desc': seq<Desc>, d: nat) {
    |desc'| == |desc| && forall e: nat :: d <= e < |desc| ==> desc'[e] == desc[e]
  }

  lemma OkAhead(desc: seq<Desc>, desc': seq<Desc>, d: nat)
    requires OkFrom(desc, d) && SameAhead(desc, desc', d)
    ensures OkFrom(desc', d)
  {
    forall e: nat | d <= e < |desc| ensures DescOk(desc', e) { assert DescOk(desc, e); }
  }

  lemma JoinsAhead(desc: seq<Desc>, desc': seq<Desc>, d: nat, ms: seq<nat>, sc: nat)
    requires SameAhead(desc, desc', d) && d < |desc|
    ensures Joins(desc', d, ms, sc) <==> Joins(desc, d, ms, sc)
  {
  }

  /** Both lists depend only on the descriptors still ahead. */
  lemma {:induction false} ListsAhead(desc: seq<Desc>, desc': seq<Desc>, d: nat, ms: seq<nat>, sc: nat)
    requires OkFrom(desc, d) && SameAhead(desc, desc', d)
    ensures OkFrom(desc', d) && Retired(desc', d, ms) == Retired(desc, d, ms)
      && Joined(desc', d, ms, sc) == Joined(desc, d, ms, sc)
    decreases |desc| - d
  {
    OkAhead(desc, desc', d);
    if d < |desc| {
      var k := InSb(ms, d);
      OkAfter(desc, d, ms[..k]);
      JoinsAhead(desc, desc', d, ms[..k], sc);
      hide Joins, OkFrom, InSb;
      ListsAhead(desc, desc', After(desc, d, ms[..k]), ms[k..], sc);
    }
  }

  /** A pushed list: d in front of what was there. */
  lemma PushOne(next: map<nat, Option<nat>>, head: Option<nat>, l: seq<nat>, d: nat)
    requires IsList(next, head, l) && d !in l
    ensures IsList(next[d := head], Some(d), [d] + l)
  {
    var n := next[d := head];
    ScribbleOutside(next, head, l, d, head);
    var r := [d] + l;
    forall i | 0 <= i < |r| ensures r[i] in n && n[r[i]] == PtrAt(r, i + 1) {
      if i > 0 { assert r[i] == l[i - 1]; }
    }
    forall i, j | 0 <= i < j < |r| ensures r[i] != r[j] {
      if i == 0 { assert r[j] in l; }
    }
  }

  ghost predicate Below(l: seq<nat>, d: nat) { forall x :: x in l ==> x < d }

  /** The sweep stacks what it retires on the free-superblock list. */
  lemma {:induction false} SweepAvail(h: Heap, d: nat, ms: seq<nat>, l: seq<nat>)
    requires OkFrom(h.desc, d) && IsList(h.nextFree, h.avail, l) && Below(l, d)
    ensures var h' := SweepFrom(h, d, ms).0; IsList(h'.nextFree, h'.avail, Retired(h.desc, d, ms) + l)
    decreases |h.desc| - d
  {
    hide SweepFrom, SweepOne, IsList, InSb, After, OkFrom, InUse, DescOk, Below, Retired;
    SweepUnroll(h, d, ms);
    SweepHere(h.desc, d, ms);
    if d == |h.desc| {
      RetiredStep(h.desc, d, ms);
      assert [] + l == l;
    } else {
      var k := InSb(ms, d);
      var h', d' := SweepOne(h, d, ms[..k]), After(h.desc, d, ms[..k]);
      var put := k == 0 || !InUse(h.desc, d);
      var l' := if put then [d] + l else l;
      SweepOneAvail(h, d, ms[..k], l);
      SweepAvail(h', d', ms[k..], l');
      RetiredStep(h.desc, d, ms);
      ListsAhead(h.desc, h'.desc, d', ms[k..], 0);
      var r := Retired(h.desc, d', ms[k..]);
      assert r + l' == (r + if put then [d] else []) + l;
    }
  }

  lemma SweepHere(desc: seq<Desc>, d: nat, ms: seq<nat>)
    requires OkFrom(desc, d)
    ensures d <= |desc| && (d < |desc| ==> DescOk(desc, d)) && forall m :: m in ms[..InSb(ms, d)] ==> SbOf(m) == d
  {
    hide InSb;
  }

  lemma RetiredStep(desc: seq<Desc>, d: nat, ms: seq<nat>)
    requires OkFrom(desc, d)
    ensures d == |desc| ==> Retired(desc, d, ms) == []
    ensures d < |desc| ==>
              var k := InSb(ms, d);
              && OkFrom(desc, After(desc, d, ms[..k]))
              && Retired(desc, d, ms) == Retired(desc, After(desc, d, ms[..k]), ms[k..]) + if k == 0
                || !InUse(desc, d) then [d] else []
  {
    hide InSb, After, OkFrom;
    if d < |desc| { OkAfter(desc, d, ms[..InSb(ms, d)]); }
  }

  lemma JoinedStep(desc: seq<Desc>, d: nat, ms: seq<nat>, sc: nat)
    requires OkFrom(desc, d)
    ensures d == |desc| ==> Joined(desc, d, ms, sc) == []
    ensures d < |desc| ==>
              var k := InSb(ms, d);
              && OkFrom(desc, After(desc, d, ms[..k]))
              && Joined(desc, d, ms, sc) == Joined(desc, After(desc, d, ms[..k]), ms[k..], sc)
                + if Joins(desc, d, ms[..k], sc) then [d] else []
  {
    hide InSb, After, Joins;
    if d < |desc| { OkAfter(desc, d, ms[..InSb(ms, d)]); }
  }

  lemma SweepOneAvail(h: Heap, d: nat, ms: seq<nat>, l: seq<nat>)
    requires d < |h.desc| && OkFrom(h.desc, d) && (forall m :: m in ms ==> SbOf(m) == d)
      && IsList(h.nextFree, h.avail, l) && Below(l, d)
    ensures DescOk(h.desc, d)
    ensures var h', put := SweepOne(h, d, ms), ms == [] || !InUse(h.desc, d);
      var l' := if put then [d] + l else l;
      IsList(h'.nextFree, h'.avail, l') && Below(l', After(h.desc, d, ms))
  {
    hide IsList, FreedIn, LinkUp, InUse;
    assert DescOk(h.desc, d);
    PushOne(h.nextFree, h.avail, l, d);
    ScribbleOutside(h.nextFree, h.avail, l, d, None);
  }

  /** And it stacks the partly free superblocks on the partial lists of their classes. */
  lemma {:induction false} SweepPartial(h: Heap, d: nat, ms: seq<nat>, sc: nat, l: seq<nat>)
    requires OkFrom(h.desc, d) && IsList(h.nextPartial, Get(h.partial, sc, None), l) && Below(l, d)
    ensures
      var h' := SweepFrom(h, d, ms).0;
      IsList(h'.nextPartial, Get(h'.partial, sc, None), Joined(h.desc, d, ms, sc) + l)
    decreases |h.desc| - d
  {
    hide SweepFrom, SweepOne, IsList, InSb, OkFrom, Joins, After, DescOk, Below, Joined;
    SweepUnroll(h, d, ms);
    SweepHere(h.desc, d, ms);
    JoinedStep(h.desc, d, ms, sc);
    if d == |h.desc| {
      assert [] + l == l;
    } else {
      var k := InSb(ms, d);
      var h', d' := SweepOne(h, d, ms[..k]), After(h.desc, d, ms[..k]);
      var put := Joins(h.desc, d, ms[..k], sc);
      var l' := if put then [d] + l else l;
      BelowAfter(h.desc, d, ms[..k], l);
      SweepOnePartial(h, d, ms[..k], sc, l);
      SweepPartial(h', d', ms[k..], sc, l');
      ListsAhead(h.desc, h'.desc, d', ms[k..], sc);
      var r := Joined(h.desc, d', ms[k..], sc);
      assert r + l' == (r + if put then [d] else []) + l;
    }
  }

  lemma BelowAfter(desc: seq<Desc>, d: nat, ms: seq<nat>, l: seq<nat>)
    requires d < |desc| && OkFrom(desc, d) && Below(l, d)
    ensures d !in l && Below(l, After(desc, d, ms)) && Below([d] + l, After(desc, d, ms))
  {
    OkAfter(desc, d, ms);
  }

  lemma SweepOnePartial(h: Heap, d: nat, ms: seq<nat>, sc: nat, l: seq<nat>)
    requires d < |h.desc| && DescOk(h.desc, d) && forall m :: m in ms ==> SbOf(m) == d
    requires IsList(h.nextPartial, Get(h.partial, sc, None), l) && d !in l
    ensures
      var h' := SweepOne(h, d, ms);
      IsList(h'.nextPartial, Get(h'.partial, sc, None), if Joins(h.desc, d, ms, sc) then [d] + l else l)
  {
    hide IsList;
    var h' := SweepOne(h, d, ms);
    if Joins(h.desc, d, ms, sc) {
      PushOne(h.nextPartial, Get(h.partial, sc, None), l, d);
    } else {
      ScribbleOutside(h.nextPartial, Get(h.partial, sc, None), l, d, Get(h'.nextPartial, d, None));
      assert h'.nextPartial == h.nextPartial[d := Get(h'.nextPartial, d, None)];
    }
  }

  lemma {:induction false} RetiredAhead(desc: seq<Desc>, d: nat, ms: seq<nat>, e: nat)
    requires OkFrom(desc, d) && e in Retired(desc, d, ms)
    ensures d <= e < |desc|
    decreases |desc| - d
  {
    if d < |desc| {
      var k := InSb(ms, d);
      OkAfter(desc, d, ms[..k]);
      if e != d { RetiredAhead(desc, After(desc, d, ms[..k]), ms[k..], e); }
    }
  }

  /** Retired are exactly the superblocks that are neither kept nor jumped over. */
  lemma {:induction false} RetiredMeans(desc: seq<Desc>, d: nat, ms: seq<nat>, e: nat)
    requires OkFrom(desc, d) && Marks(desc, ms) && NoneSkipped(desc, ms, d)
    ensures e in Retired(desc, d, ms) <==> e < |desc| && !Skipped(desc, ms, d, e) && !Kept(desc, ms, e)
    decreases |desc| - d
  {
    if d < |desc| {
      var k := InSb(ms, d);
      var d', rest := After(desc, d, ms[..k]), ms[k..];
      OkAfter(desc, d, ms[..k]);
      RestOfMarks(desc, ms, d);
      SkippedStep(desc, desc, ms, d);
      RetiredMeans(desc, d', rest, e);
      assert forall m :: m in ms ==> SbOf(m) >= d by { assert forall m :: m in ms ==> !Skipped(desc, ms, d, SbOf(m)); }
      if e == d && e in Retired(desc, d', rest) { RetiredAhead(desc, d', rest, e); }
    }
  }

  lemma {:induction false} JoinedAhead(desc: seq<Desc>, d: nat, ms: seq<nat>, sc: nat, e: nat)
    requires OkFrom(desc, d) && e in Joined(desc, d, ms, sc)
    ensures d <= e < |desc|
    decreases |desc| - d
  {
    if d < |desc| {
      var k := InSb(ms, d);
      OkAfter(desc, d, ms[..k]);
      if e != d { JoinedAhead(desc, After(desc, d, ms[..k]), ms[k..], sc, e); }
    }
  }

  lemma {:induction false} JoinedMeans(desc: seq<Desc>, d: nat, ms: seq<nat>, sc: nat, e: nat)
    requires OkFrom(desc, d) && Marks(desc, ms) && NoneSkipped(desc, ms, d)
    ensures e in Joined(desc, d, ms, sc) <==> !Skipped(desc, ms, d, e) && Joins(desc, e, MarksIn(ms, e), sc)
    decreases |desc| - d
  {
    if d < |desc| {
      var k := InSb(ms, d);
      var d', rest := After(desc, d, ms[..k]), ms[k..];
      OkAfter(desc, d, ms[..k]);
      RestOfMarks(desc, ms, d);
      SkippedStep(desc, desc, ms, d);
      MarksHere(desc, d, ms);
      MarksInStep(ms, k, d, e);
      hide Joins, MarksIn;
      JoinedMeans(desc, d', rest, sc, e);
      if e == d && e in Joined(desc, d', rest, sc) { JoinedAhead(desc, d', rest, sc, e); }
    }
  }

  // ---- the whole sweep ----

  /** Recovery starts with empty lists. */
  ghost predicate Cleared(h: Heap) { h.avail == None && forall sc: nat :: Get(h.partial, sc, None) == None }

  /**
   * Unless a mark lies where the sweep jumps over it, every superblock in its path is recovered by
   * the marks it holds, exactly the retired ones are on the free-superblock list, exactly the partly
   * free small ones are on the partial list of their class, each once, and the superblocks jumped
   * over are left alone.
   */
  lemma SweepOutcome(h: Heap, ms: seq<nat>)
    requires WellFormed(h.desc) && |h.desc| > 0 && Marks(h.desc, ms) && Cleared(h)
    ensures OkFrom(h.desc, 1)
    ensures SweepFrom(h, 1, ms).1 == [] <==> NoneSkipped(h.desc, ms, 1)
    ensures NoneSkipped(h.desc, ms, 1) ==>
              var h' := SweepFrom(h, 1, ms).0;
              && (forall e: nat :: e < |h.desc| && !Skipped(h.desc, ms, 1, e) ==> Recovered(h, h', e, MarksIn(ms, e)))
              && (forall e: nat :: e < |h.desc| && Skipped(h.desc, ms, 1, e) ==> SameAt(h, h', e))
              && AvailOk(h, h', ms) && forall sc: nat :: PartialOk(h, h', ms, sc)
  {
    assert forall e: nat :: 1 <= e < |h.desc| ==> DescOk(h.desc, e);
    CursorFinishes(h, 1, ms);
    if NoneSkipped(h.desc, ms, 1) {
      var h' := SweepFrom(h, 1, ms).0;
      hide SweepFrom, IsList, Recovered, SameAt;
      forall e: nat | e < |h.desc| && !Skipped(h.desc, ms, 1, e) ensures Recovered(h, h', e, MarksIn(ms, e)) {
        SweepRecovers(h, 1, ms, e);
      }
      forall e: nat | e < |h.desc| && Skipped(h.desc, ms, 1, e) ensures SameAt(h, h', e) { SweepForward(h, 1, ms, e); }
      AvailIsExact(h, ms);
      forall sc: nat ensures PartialOk(h, h', ms, sc) { PartialIsExact(h, ms, sc); }
    }
  }

  /** The free-superblock list holds exactly the superblocks recovery retires, each once. */
  ghost predicate AvailOk(h: Heap, h': Heap, ms: seq<nat>) {
    exists l :: IsList(h'.nextFree, h'.avail, l) && AvailRight(h, ms, l)
  }

  /** The partial list of class sc holds exactly its small superblocks with freed chunks, each once. */
  ghost predicate PartialOk(h: Heap, h': Heap, ms: seq<nat>, sc: nat) {
    exists l :: IsList(h'.nextPartial, Get(h'.partial, sc, None), l) && PartialRight(h, ms, sc, l)
  }

  ghost predicate AvailRight(h: Heap, ms: seq<nat>, l: seq<nat>) {
    forall e: nat :: e in l <==> e < |h.desc| && !Skipped(h.desc, ms, 1, e) && !Kept(h.desc, ms, e)
  }

  ghost predicate PartialRight(h: Heap, ms: seq<nat>, sc: nat, l: seq<nat>) {
    forall e: nat :: e in l <==> !Skipped(h.desc, ms, 1, e) && Joins(h.desc, e, MarksIn(ms, e), sc)
  }

  lemma AvailIsExact(h: Heap, ms: seq<nat>)
    requires OkFrom(h.desc, 1) && Marks(h.desc, ms) && Cleared(h) && NoneSkipped(h.desc, ms, 1)
    ensures var h' := SweepFrom(h, 1, ms).0; AvailOk(h, h', ms)
  {
    var l := Retired(h.desc, 1, ms);
    SweepAvail(h, 1, ms, []);
    assert l + [] == l;
    forall e: nat ensures e in l <==> e < |h.desc| && !Skipped(h.desc, ms, 1, e) && !Kept(h.desc, ms, e) {
      RetiredMeans(h.desc, 1, ms, e);
    }
    assert AvailRight(h, ms, l);
  }

  lemma PartialIsExact(h: Heap, ms: seq<nat>, sc: nat)
    requires OkFrom(h.desc, 1) && Marks(h.desc, ms) && Cleared(h) && NoneSkipped(h.desc, ms, 1)
    ensures var h' := SweepFrom(h, 1, ms).0; PartialOk(h, h', ms, sc)
  {
    var l := Joined(h.desc, 1, ms, sc);
    SweepPartial(h, 1, ms, sc, []);
    assert l + [] == l;
    forall e: nat ensures e in l <==> !Skipped(h.desc, ms, 1, e) && Joins(h.desc, e, MarksIn(ms, e), sc) {
      JoinedMeans(h.desc, 1, ms, sc, e);
    }
    assert PartialRight(h, ms, sc, l);
  }

  // ---- the free list of a small superblock ----

  function Shifted(s: seq<nat>, base: nat): (r: seq<nat>)
    ensures |r| == |s| && forall i :: 0 <= i < |s| ==> r[i] == s[i] + base
  {
    seq(|s|, i requires 0 <= i < |s| => s[i] + base)
  }

  /** The marks of superblock e relative to its start. */
  function Relative(ms: seq<nat>, e: nat): (r: seq<nat>)
    requires forall m :: m in ms ==> SbOf(m) == e
    ensures Shifted(r, e * SBSIZE) == ms
  {
    assert forall i :: 0 <= i < |ms| ==> SbOf(ms[i]) == e by { assert forall i :: 0 <= i < |ms| ==> ms[i] in ms; }
    seq(|ms|, i requires 0 <= i < |ms| => Offset(ms[i], e))
  }

  function Offset(m: nat, e: nat): nat { if m >= e * SBSIZE then m - e * SBSIZE else 0 }

  lemma {:induction false} RunShifted(p: nat, limit: nat, bs: nat, base: nat)
    requires bs > 0
    ensures FreeRun(p + base, limit + base, bs) == Shifted(FreeRun(p, limit, bs), base)
    decreases limit - p
  {
    if p < limit { RunShifted(p + bs, limit, bs, base); }
  }

  lemma {:induction false} FreedShifted(ms: seq<nat>, p: nat, bs: nat, end: nat, base: nat)
    requires bs > 0
    ensures Freed(Shifted(ms, base), p + base, bs, end + base) == Shifted(Freed(ms, p, bs, end), base)
    decreases |ms|
  {
    hide FreeRun;
    if ms == [] {
      RunShifted(p, end, bs, base);
    } else {
      RunShifted(p, ms[0], bs, base);
      FreedShifted(ms[1..], ms[0] + bs, bs, end, base);
      assert Shifted(ms, base)[1..] == Shifted(ms[1..], base);
    }
  }

  /** a is the start of a block of small superblock e. */
  predicate IsBlockOf(desc: seq<Desc>, e: nat, a: nat)
    requires e < |desc| && desc[e].blockSize > 0
  {
    e * SBSIZE <= a < EndOf(desc, e) && (a - e * SBSIZE) % desc[e].blockSize == 0
  }

  /** The free list of a small superblock is right: exactly the blocks without a marked address. */
  ghost predicate FreeListRight(desc: seq<Desc>, e: nat, ms: seq<nat>)
    requires e < |desc| && desc[e].blockSize > 0
  {
    forall a: nat :: a in FreedIn(desc, e, ms) <==> IsBlockOf(desc, e, a) && !Live(ms, desc[e].blockSize, a)
  }

  /** It is right if and only if the marks, relative to the superblock, are covered. */
  lemma FreeListIffCovered(desc: seq<Desc>, e: nat, ms: seq<nat>)
    requires e < |desc| && DescOk(desc, e) && IsSmall(desc, e) && Sorted(ms) && forall m :: m in ms ==> SbOf(m) == e
    ensures FreeListRight(desc, e, ms) <==>
      Covered(Relative(ms, e), desc[e].blockSize, desc[e].maxcount * desc[e].blockSize)
  {
    var bs, base, end, rs := desc[e].blockSize, e * SBSIZE, desc[e].maxcount * desc[e].blockSize, Relative(ms, e);
    SmallEnd(desc, e);
    forall m | m in rs ensures m < end + bs { var i :| 0 <= i < |rs| && rs[i] == m; assert ms[i] in ms; }
    ExactIffCovered(rs, bs, end);
    FreedShifted(rs, 0, bs, end, base);
    RightIsExact(desc, e, ms);
  }

  lemma RightIsExact(desc: seq<Desc>, e: nat, ms: seq<nat>)
    requires e < |desc| && desc[e].blockSize > 0 && forall m :: m in ms ==> SbOf(m) == e
    requires FreedIn(desc, e, ms) ==
      Shifted(Freed(Relative(ms, e), 0, desc[e].blockSize, desc[e].maxcount * desc[e].blockSize), e * SBSIZE)
    ensures FreeListRight(desc, e, ms) <==>
      Exact(Relative(ms, e), desc[e].blockSize, desc[e].maxcount * desc[e].blockSize)
  {
    hide Freed, FreedIn, Live, Shifted, Relative, SbOf;
    var bs, base, end, rs := desc[e].blockSize, e * SBSIZE, desc[e].maxcount * desc[e].blockSize, Relative(ms, e);
    forall a: nat ensures AsShifted(desc, e, ms, a) { RightAt(desc, e, ms, a); }
    if FreeListRight(desc, e, ms) {
      forall a: nat ensures a in Freed(rs, 0, bs, end) <==> a % bs == 0 && a < end && !Live(rs, bs, a) {
        assert AsShifted(desc, e, ms, a);
      }
    }
    if Exact(rs, bs, end) {
      forall a: nat ensures a in FreedIn(desc, e, ms) <==> IsBlockOf(desc, e, a) && !Live(ms, bs, a) {
        if a >= base { assert AsShifted(desc, e, ms, a - base); } else { FreedInside(desc, e, ms, a); }
      }
    }
  }

  /** What holds of address a relative to the superblock holds of it in the region. */
  ghost predicate AsShifted(desc: seq<Desc>, e: nat, ms: seq<nat>, a: nat)
    requires e < |desc| && desc[e].blockSize > 0 && forall m :: m in ms ==> SbOf(m) == e
  {
    var bs, base, end, rs := desc[e].blockSize, e * SBSIZE, desc[e].maxcount * desc[e].blockSize, Relative(ms, e);
    && (a in Freed(rs, 0, bs, end) <==> a + base in FreedIn(desc, e, ms))
    && (Live(rs, bs, a) <==> Live(ms, bs, a + base))
  }

  lemma RightAt(desc: seq<Desc>, e: nat, ms: seq<nat>, a: nat)
    requires e < |desc| && desc[e].blockSize > 0 && forall m :: m in ms ==> SbOf(m) == e
    requires FreedIn(desc, e, ms) ==
      Shifted(Freed(Relative(ms, e), 0, desc[e].blockSize, desc[e].maxcount * desc[e].blockSize), e * SBSIZE)
    ensures AsShifted(desc, e, ms, a)
  {
    hide Freed, FreedIn, Live;
    ShiftedMember(Freed(Relative(ms, e), 0, desc[e].blockSize, desc[e].maxcount * desc[e].blockSize), e * SBSIZE);
    LiveShifted(Relative(ms, e), e * SBSIZE, desc[e].blockSize, a);
    assert Shifted(Relative(ms, e), e * SBSIZE) == ms;
  }

  lemma FreedInside(desc: seq<Desc>, e: nat, ms: seq<nat>, a: nat)
    requires e < |desc| && desc[e].blockSize > 0 && (forall m :: m in ms ==> SbOf(m) == e) && a < e * SBSIZE
    requires FreedIn(desc, e, ms) ==
      Shifted(Freed(Relative(ms, e), 0, desc[e].blockSize, desc[e].maxcount * desc[e].blockSize), e * SBSIZE)
    ensures a !in FreedIn(desc, e, ms)
  {
    hide Freed, FreedIn;
    ShiftedMember(Freed(Relative(ms, e), 0, desc[e].blockSize, desc[e].maxcount * desc[e].blockSize), e * SBSIZE);
  }

  lemma ShiftedMember(f: seq<nat>, base: nat)
    ensures forall a: nat :: a in f <==> a + base in Shifted(f, base)
    ensures forall a :: a in Shifted(f, base) ==> a >= base
  {
    forall a: nat ensures a in f <==> a + base in Shifted(f, base) {
      if a in f { var i :| 0 <= i < |f| && f[i] == a; assert Shifted(f, base)[i] == a + base; }
      if a + base in Shifted(f, base) { var i :| 0 <= i < |f| && Shifted(f, base)[i] == a + base; assert f[i] == a; }
    }
  }

  lemma LiveShifted(rs: seq<nat>, base: nat, bs: nat, a: nat)
    ensures Live(rs, bs, a) <==> Live(Shifted(rs, base), bs, a + base)
  {
    ShiftedMember(rs, base);
    if Live(rs, bs, a) { var m :| m in rs && a <= m < a + bs; assert m + base in Shifted(rs, base); }
    if Live(Shifted(rs, base), bs, a + base) {
      var m :| m in Shifted(rs, base) && a + base <= m < a + base + bs;
      assert (m - base) + base == m && m - base in rs;
    }
  }

  /** A single mark in the first superblock stalls the cursor: a marked superblock is then retired. */
  lemma StalledCursorRetiresLive(h: Heap)
    requires h.desc == [BLANK, Desc(Some(1), Some(SBSIZE), 16, 4096)]
    ensures WellFormed(h.desc) && Marks(h.desc, [8, SBSIZE]) && Kept(h.desc, [8, SBSIZE], 1)
    ensures OkFrom(h.desc, 1) && SweepFrom(h, 1, [8, SBSIZE]).0.desc == [BLANK, BLANK]
      && SweepFrom(h, 1, [8, SBSIZE]).1 == [8, SBSIZE]
  {
    var ms := [8, SBSIZE];
    assert InSb(ms, 1) == 0 && ms[..0] == [] && ms[0..] == ms;
    assert SBSIZE in ms;
    OkStays(h, 1, []);
    assert SweepFrom(h, 1, ms) == SweepFrom(SweepOne(h, 1, []), 2, ms);
  }
}
