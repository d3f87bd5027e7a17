/**
 * GarbageCollection: the stop-the-world mark and sweep that rebuilds Ralloc's transient metadata
 * after a crash.
 */
module RallocCollector {
  import opened Common
  import opened RallocMachine
  import opened RallocSweep
  import opened RallocRecovery
  import RallocExact

  function Addresses(top: nat): (s: set<nat>)
    ensures forall a: nat :: a in s <==> a < top
  {
    if top == 0 then {} else Addresses(top - 1) + {top - 1}
  }

  /** The marked addresses below top in ascending order. */
  function Ascending(marked: set<nat>, top: nat): (ms: seq<nat>)
    ensures Sorted(ms) && forall a: nat :: a in ms <==> a in marked && a < top
  {
    if top == 0 then []
    else
      var below := Ascending(marked, top - 1);
      assert forall i :: 0 <= i < |below| ==> below[i] in below;
      if top - 1 in marked then below + [top - 1] else below
  }

  /** The bytes the default filter scans in the block it is given. */
  function ScanSize(desc: seq<Desc>, a: nat): nat { if SbOf(a) < |desc| then desc[SbOf(a)].blockSize else 0 }

  function Top(desc: seq<Desc>): nat { |desc| * SBSIZE }

  /** The pointer into the superblock region that the i-th byte of the scan of a starts, if any. */
  function RefAt(desc: seq<Desc>, mem: map<nat, Option<nat>>, a: nat, i: nat): Option<nat> {
    match Get(mem, a + i, None)
    case Some(p) => if p < Top(desc) then Some(p) else None
    case None => None
  }

  /** Every pointer found in the first n bytes of the scan of a leads into r. */
  ghost predicate ScannedTo(desc: seq<Desc>, mem: map<nat, Option<nat>>, a: nat, n: nat, r: set<nat>) {
    forall i: nat :: i < n && RefAt(desc, mem, a, i).Some? ==> RefAt(desc, mem, a, i).value in r
  }

  ghost predicate Scanned(desc: seq<Desc>, mem: map<nat, Option<nat>>, a: nat, r: set<nat>) {
    ScannedTo(desc, mem, a, ScanSize(desc, a), r)
  }

  ghost predicate HasRoots(desc: seq<Desc>, roots: seq<Option<nat>>, r: set<nat>) {
    forall i :: 0 <= i < |roots| && roots[i].Some? && roots[i].value < Top(desc) ==> roots[i].value in r
  }

  /** r holds every root in range and is closed under the filter function. */
  ghost predicate Closed(desc: seq<Desc>, mem: map<nat, Option<nat>>, roots: seq<Option<nat>>, r: set<nat>) {
    HasRoots(desc, roots, r) && forall a :: a in r ==> Scanned(desc, mem, a, r)
  }

  // ---- the same without the filter ----

  /** The block a lies in has a word, at any byte from a on over the size of a block, that points to p. */
  ghost predicate PointsTo(desc: seq<Desc>, mem: map<nat, Option<nat>>, a: nat, p: nat) {
    && a / SBSIZE < |desc| && p < |desc| * SBSIZE
    && exists b: nat :: b in mem && a <= b < a + desc[a / SBSIZE].blockSize && mem[b] == Some(p)
  }

  /** A way from a root to a, pointer by pointer. */
  ghost predicate IsWay(desc: seq<Desc>, mem: map<nat, Option<nat>>, roots: seq<Option<nat>>, way: seq<nat>, a: nat) {
    && way != [] && Some(way[0]) in roots && way[0] < |desc| * SBSIZE && way[|way| - 1] == a
    && forall i :: 0 <= i < |way| - 1 ==> PointsTo(desc, mem, way[i], way[i + 1])
  }

  ghost predicate Reached(desc: seq<Desc>, mem: map<nat, Option<nat>>, roots: seq<Option<nat>>, a: nat) {
    exists way :: IsWay(desc, mem, roots, way, a)
  }

  lemma SbBelow(a: nat, n: nat)
    requires a < n * SBSIZE
    ensures a / SBSIZE < n
  {
  }

  /** What a closed set of addresses holds. */
  lemma ClosedHolds(desc: seq<Desc>, mem: map<nat, Option<nat>>, roots: seq<Option<nat>>, r: set<nat>)
    requires Closed(desc, mem, roots, r) && r <= Addresses(Top(desc))
    ensures forall p: nat :: Some(p) in roots && p < |desc| * SBSIZE ==> p in r
    ensures forall a: nat :: a in r ==> a < |desc| * SBSIZE && a / SBSIZE < |desc|
    ensures forall a: nat, b: nat :: a in r && b in mem && a <= b < a + desc[a / SBSIZE].blockSize ==>
      mem[b].Some? && mem[b].value < |desc| * SBSIZE ==> mem[b].value in r
  {
    hide Addresses, Scanned, SbOf;
    forall a: nat | a in r ensures a < |desc| * SBSIZE && a / SBSIZE < |desc| { SbBelow(a, |desc|); }
    forall a: nat, b: nat | a in r && b in mem && a <= b < a + desc[a / SBSIZE].blockSize
      ensures mem[b].Some? && mem[b].value < |desc| * SBSIZE ==> mem[b].value in r
    {
      ScannedHolds(desc, mem, a, r, b);
    }
  }

  lemma ScannedHolds(desc: seq<Desc>, mem: map<nat, Option<nat>>, a: nat, r: set<nat>, b: nat)
    requires Scanned(desc, mem, a, r) && a / SBSIZE < |desc| && b in mem && a <= b < a + desc[a / SBSIZE].blockSize
    ensures mem[b].Some? && mem[b].value < |desc| * SBSIZE ==> mem[b].value in r
  {
    var i := b - a;
    assert mem[b].Some? && mem[b].value < |desc| * SBSIZE ==> RefAt(desc, mem, a, i) == mem[b];
  }

  /** The addresses with a way to them are closed, so the least closed set has no others. */
  lemma ReachedClosed(desc: seq<Desc>, mem: map<nat, Option<nat>>, roots: seq<Option<nat>>)
    ensures Closed(desc, mem, roots, set a | a in Addresses(Top(desc)) && Reached(desc, mem, roots, a))
  {
    var r := set a | a in Addresses(Top(desc)) && Reached(desc, mem, roots, a);
    forall i | 0 <= i < |roots| && roots[i].Some? && roots[i].value < Top(desc) ensures roots[i].value in r {
      assert IsWay(desc, mem, roots, [roots[i].value], roots[i].value);
    }
    forall a: nat | a in r ensures Scanned(desc, mem, a, r) {
      forall i: nat | i < ScanSize(desc, a) && RefAt(desc, mem, a, i).Some? ensures RefAt(desc, mem, a, i).value in r {
        OneMore(desc, mem, roots, a, i, RefAt(desc, mem, a, i).value);
      }
    }
  }

  lemma OneMore(desc: seq<Desc>, mem: map<nat, Option<nat>>, roots: seq<Option<nat>>, a: nat, i: nat, p: nat)
    requires Reached(desc, mem, roots, a) && i < ScanSize(desc, a) && RefAt(desc, mem, a, i) == Some(p)
    ensures Reached(desc, mem, roots, p)
  {
    var way :| IsWay(desc, mem, roots, way, a);
    assert a + i in mem && mem[a + i] == Some(p);
    assert PointsTo(desc, mem, a, p);
    var on := way + [p];
    forall j | 0 <= j < |on| - 1 ensures PointsTo(desc, mem, on[j], on[j + 1]) {
      if j < |way| - 1 { assert PointsTo(desc, mem, way[j], way[j + 1]); }
    }
    assert IsWay(desc, mem, roots, on, p);
  }

  class GarbageCollection {
    // the heap under recovery
    var desc: seq<Desc>
    var nextFree: map<nat, Option<nat>>
    var nextPartial: map<nat, Option<nat>>
    var anchor: map<nat, Anchor>
    var mem: map<nat, Option<nat>>
    var avail: Option<nat>
    var partial: map<nat, Option<nat>>
    // the collector
    var marked: set<nat>
    var toFilter: seq<nat>

    constructor (h: Heap)
      ensures Image() == h && marked == {} && toFilter == []
    {
      desc, nextFree, nextPartial, anchor, mem, avail, partial :=
        h.desc, h.nextFree, h.nextPartial, h.anchor, h.mem, h.avail, h.partial;
      marked, toFilter := {}, [];
    }

    ghost function Image(): Heap
      reads this
    {
      Heap(desc, nextFree, nextPartial, anchor, mem, avail, partial)
    }

    /** Marked but not yet filtered. */
    ghost predicate Open()
      reads this
    {
      && marked <= Addresses(Top(desc)) && (forall a :: a in toFilter ==> a in marked)
      && forall a :: a in marked && a !in toFilter ==> Scanned(desc, mem, a, marked)
    }

    method MarkFunc(addr: nat)
      requires marked <= Addresses(Top(desc)) && forall a :: a in toFilter ==> a in marked
      modifies `marked, `toFilter
      ensures marked == if addr < Top(desc) then old(marked) + {addr} else old(marked)
      ensures toFilter == if addr in marked && addr !in old(marked) then old(toFilter) + [addr] else old(toFilter)
      ensures marked <= Addresses(Top(desc)) && forall a :: a in toFilter ==> a in marked
      ensures forall a :: Scanned(desc, mem, a, old(marked)) ==> Scanned(desc, mem, a, marked)
    {
      if addr >= Top(desc) { return; }
      if addr !in marked {
        marked := marked + {addr};
        toFilter := toFilter + [addr];
      }
    }

    /** The default filter: anything in the block that looks like a pointer is marked. */
    method FilterFunc(ptr: nat)
      requires marked <= Addresses(Top(desc)) && (forall a :: a in toFilter ==> a in marked)
      requires ptr in marked && forall a :: a in marked && a != ptr && a !in toFilter ==> Scanned(desc, mem, a, marked)
      modifies `marked, `toFilter
      ensures Open() && old(marked) <= marked && (marked == old(marked) ==> toFilter == old(toFilter))
      ensures forall r :: old(marked) <= r && Scanned(desc, mem, ptr, r) ==> marked <= r
    {
      var sz := ScanSize(desc, ptr);
      for i := 0 to sz
        invariant marked <= Addresses(Top(desc)) && (forall a :: a in toFilter ==> a in marked) && old(marked) <= marked
        invariant forall a :: a in marked && a != ptr && a !in toFilter ==> Scanned(desc, mem, a, marked)
        invariant ScannedTo(desc, mem, ptr, i, marked)
        invariant marked == old(marked) ==> toFilter == old(toFilter)
        invariant forall r :: old(marked) <= r && Scanned(desc, mem, ptr, r) ==> marked <= r
      {
        var content := Get(mem, ptr + i, None);
        if content.Some? {
          assert content.value < Top(desc) ==> RefAt(desc, mem, ptr, i) == content;
          MarkFunc(content.value);
        }
      }
    }

    /** Marks the least set that holds the roots in range and is closed under the filter. */
    method Mark(roots: seq<Option<nat>>)
      requires marked == {} && toFilter == []
      modifies `marked, `toFilter
      ensures Closed(desc, mem, roots, marked) && marked <= Addresses(Top(desc))
      ensures forall r :: Closed(desc, mem, roots, r) ==> marked <= r
      // every root in range, and every pointer in range found at any byte of a marked block, is marked
      ensures forall p: nat :: Some(p) in roots && p < |desc| * SBSIZE ==> p in marked
      ensures forall a: nat :: a in marked ==> a / SBSIZE < |desc|
      ensures forall a: nat, b: nat :: a in marked && b in mem && a <= b < a + desc[a / SBSIZE].blockSize ==>
        mem[b].Some? && mem[b].value < |desc| * SBSIZE ==> mem[b].value in marked
      // and nothing is marked without a way to it
      ensures forall a: nat :: a in marked ==> Reached(desc, mem, roots, a)
    {
      hide Scanned, Addresses, Reached, SbOf;
      for i := 0 to |roots|
        invariant Open() && HasRoots(desc, roots[..i], marked)
        invariant forall r :: Closed(desc, mem, roots, r) ==> marked <= r
      {
        if roots[i].Some? { MarkFunc(roots[i].value); }
      }
      while toFilter != []
        invariant Open() && HasRoots(desc, roots, marked)
        invariant forall r :: Closed(desc, mem, roots, r) ==> marked <= r
        decreases Addresses(Top(desc)) - marked, |toFilter|
      {
        var node := toFilter[|toFilter| - 1];
        toFilter := toFilter[..|toFilter| - 1];
        FilterFunc(node);
      }
      ClosedHolds(desc, mem, roots, marked);
      ReachedClosed(desc, mem, roots);
    }

    /** Puts p, p + bs, ... below limit in front of the free list, each word pointing to the one before. */
    method FreeUpTo(start: nat, limit: nat, bs: nat, front: Option<nat>) returns (head: Option<nat>, count: nat)
      requires bs > 0
      modifies `mem
      ensures var f := FreeRun(start, limit, bs);
        mem == LinkUp(old(mem), f, front) && head == LastOr(f, front) && count == |f|
    {
      head, count := front, 0;
      var freeBlock := start;
      while freeBlock < limit
        invariant var f := FreeRun(freeBlock, limit, bs);
          var all := FreeRun(start, limit, bs);
          LinkUp(mem, f, head) == LinkUp(old(mem), all, front) && LastOr(f, head) == LastOr(all, front)
            && count + |f| == |all|
      {
        mem := mem[freeBlock := head];
        head := Some(freeBlock);
        freeBlock := freeBlock + bs;
        count := count + 1;
      }
    }

    /** Passes the marks of superblock d, freeing what lies between them if it is a small one in use. */
    method PassMarks(d: nat, ms: seq<nat>, start: nat)
      returns (cur: nat, state: SbState, head: Option<nat>, count: nat, last: nat, ghost f: seq<nat>)
      requires start <= |ms| && d < |desc| && DescOk(desc, d)
      modifies `mem
      ensures cur == start + InSb(ms[start..], d)
      ensures state == if cur == start || !InUse(desc, d) then Empty else if IsLarge(desc, d) then Full else Partial
      ensures mem == LinkUp(old(mem), f, None) && head == LastOr(f, None) && count == |f|
      ensures !state.Partial? ==> f == []
      ensures state.Partial? ==>
        f + FreeRun(last, EndOf(desc, d), desc[d].blockSize) == FreedIn(desc, d, ms[start..cur])
    {
      cur, state, head, count, last, f := start, Empty, None, 0, d * SBSIZE, [];
      ghost var stop := start + InSb(ms[start..], d);
      StopIsRight(ms, start, d);
      assert IsSmall(desc, d) ==> SoFar(desc, d, ms, start, start, stop, last, f);
      NoLinks(mem);
      hide LinkUp, InSb, Freed, SoFar;
      while cur < |ms| && SbOf(d * SBSIZE) == SbOf(ms[cur])
        invariant start <= cur <= stop
        invariant state == if cur == start || !InUse(desc, d) then Empty else if IsLarge(desc, d) then Full else Partial
        invariant cur == start || !IsSmall(desc, d) ==> f == []
        invariant mem == LinkUp(old(mem), f, None) && head == LastOr(f, None) && count == |f|
        invariant IsSmall(desc, d) ==> SoFar(desc, d, ms, start, cur, stop, last, f)
      {
        if desc[d].heap.Some? && desc[d].superblock == Some(d * SBSIZE) {
          if desc[d].heap.value == 0 {
            state := Full;
          } else {
            state := Partial;
            ghost var run := FreeRun(last, ms[cur], desc[d].blockSize);
            SoFarStep(desc, d, ms, start, cur, stop, last, f);
            LinkUpConcat(old(mem), f, run, None);
            var more;
            head, more := FreeUpTo(last, ms[cur], desc[d].blockSize, head);
            count := count + more;
            last := ms[cur] + desc[d].blockSize;
            f := f + run;
          }
        }
        cur := cur + 1;
      }
      if state.Partial? { SoFarDone(desc, d, ms, start, stop, last, f); }
    }

    /** Rebuilds every list from the marks; cur counts the marks the cursor got past. */
    method Sweep(ms: seq<nat>) returns (cur: nat)
      requires |desc| > 0 && OkFrom(desc, 1) && avail == None
      modifies `desc, `nextFree, `nextPartial, `anchor, `mem, `avail, `partial
      ensures cur <= |ms| && (Image(), ms[cur..]) == SweepFrom(old(Image()), 1, ms)
    {
      hide SweepFrom, SweepOne, InSb, After, OkFrom;
      cur := 0;
      var d, availSb := 1, None;
      assert ms[0..] == ms;
      assert Image().(avail := None) == Image();
      OneIsInside(desc);
      while d < |desc|
        invariant d <= |desc| && cur <= |ms| && OkFrom(desc, d) && OkFrom(old(desc), 1)
        invariant SweepFrom(Image().(avail := availSb), d, ms[cur..]) == SweepFrom(old(Image()), 1, ms)
        decreases |desc| - d
      {
        SweepUnroll(Image().(avail := availSb), d, ms[cur..]);
        var cur';
        d, cur', availSb := SweepNext(d, ms, cur, availSb);
        assert ms[cur'..] == ms[cur..][cur' - cur..];
        cur := cur';
      }
      avail := availSb;
      SweepUnroll(Image(), d, ms[cur..]);
    }

    /** One round of the sweep. */
    method SweepNext(d: nat, ms: seq<nat>, start: nat, availSb: Option<nat>)
          returns (d': nat, cur: nat, availSb': Option<nat>)
      requires d < |desc| && OkFrom(desc, d) && start <= |ms|
      modifies `desc, `nextFree, `nextPartial, `anchor, `mem, `partial
      ensures start <= cur <= |ms| && cur == start + InSb(ms[start..], d)
      ensures |desc| == old(|desc|) && d' == After(old(desc), d, ms[start..][..cur - start]) && d < d' <= |desc|
        && OkFrom(desc, d')
      ensures Image().(avail := availSb') == SweepOne(old(Image()).(avail := availSb), d, ms[start..][..cur - start])
    {
      assert DescOk(desc, d);
      OkStays(Image().(avail := availSb), d, ms[start..][..InSb(ms[start..], d)]);
      hide InSb, LinkUp, Freed;
      var state, head, count, last;
      ghost var f;
      cur, state, head, count, last, f := PassMarks(d, ms, start);
      assert ms[start..cur] == ms[start..][..cur - start];
      availSb' := availSb;
      if state == Empty {
        NoLinks(old(mem));
        desc := desc[d := BLANK];
        nextFree, nextPartial, anchor := nextFree[d := availSb], nextPartial[d := None], anchor[d := NO_ANCHOR];
        availSb' := Some(d);
        d' := d + 1;
      } else if desc[d].heap.value == 0 {
        NoLinks(old(mem));
        nextFree, nextPartial, anchor := nextFree[d := None], nextPartial[d := None], anchor[d := Anchor(0, 0, Full)];
        d' := SbOf(d * SBSIZE + desc[d].blockSize);
      } else {
        Rebuild(d, ms[start..cur], head, count, last, f, old(mem));
        d' := d + 1;
      }
    }

    /** Frees the end of small superblock d and sets its anchor. */
    method Rebuild(d: nat, ghost ms: seq<nat>, head0: Option<nat>, count0: nat, last: nat, ghost f: seq<nat>,
          ghost mem0: map<nat, Option<nat>>)
      requires d < |desc| && DescOk(desc, d) && IsSmall(desc, d) && ms != [] && forall m :: m in ms ==> SbOf(m) == d
      requires mem == LinkUp(mem0, f, None) && head0 == LastOr(f, None) && count0 == |f|
      requires f + FreeRun(last, EndOf(desc, d), desc[d].blockSize) == FreedIn(desc, d, ms)
      modifies `nextFree, `nextPartial, `anchor, `mem, `partial
      ensures forall a :: Image().(avail := a) == SweepOne(old(Image()).(avail := a, mem := mem0), d, ms)
    {
      hide LinkUp, FreedIn, FreeRun, SweepOne, NewAnchor, EndOf, DescOk;
      ghost var h := Image().(mem := mem0);
      SweepSmall(h, d, ms);
      ghost var run := FreeRun(last, EndOf(desc, d), desc[d].blockSize);
      LinkUpConcat(mem0, f, run, None);
      var head, more := FreeUpTo(last, EndOf(desc, d), desc[d].blockSize, head0);
      var count := count0 + more;
      RebuiltAnchor(desc, d, ms, head, count);
      nextFree := nextFree[d := None];
      if count == 0 {
        nextPartial := nextPartial[d := None];
        anchor := anchor[d := Anchor(desc[d].maxcount, 0, Full)];
      } else {
        // heap_push_partial
        var sc := desc[d].heap.value;
        nextPartial := nextPartial[d := Get(partial, sc, None)];
        partial := partial[sc := Some(d)];
        anchor := anchor[d := Anchor((head.value - d * SBSIZE) / desc[d].blockSize, count, Partial)];
      }
      forall a ensures Image().(avail := a) == SweepOne(h.(avail := a), d, ms) { SweepSmall(h.(avail := a), d, ms); }
    }

    /** The whole collection. */
    method Collect(roots: seq<Option<nat>>) returns (cur: nat)
      requires marked == {} && toFilter == [] && |desc| > 0 && WellFormed(desc)
      modifies this
      ensures Closed(old(desc), old(mem), roots, marked) && marked <= Addresses(Top(old(desc)))
      ensures forall r :: Closed(old(desc), old(mem), roots, r) ==> marked <= r
      // every root in range, and every pointer in range found at any byte of a marked block, is marked
      ensures forall p: nat :: Some(p) in roots && p < |old(desc)| * SBSIZE ==> p in marked
      ensures forall a: nat :: a in marked ==> a / SBSIZE < |old(desc)|
      ensures forall a: nat, b: nat :: a in marked && b in old(mem) && a <= b < a + old(desc)[a / SBSIZE].blockSize ==>
        old(mem)[b].Some? && old(mem)[b].value < |old(desc)| * SBSIZE ==> old(mem)[b].value in marked
      // and nothing is marked without a way to it
      ensures forall a: nat :: a in marked ==> Reached(old(desc), old(mem), roots, a)
      ensures
        var ms := Ascending(marked, Top(old(desc)));
        var h := old(Image()).(avail := None, partial := map[]);
        && Marks(old(desc), ms) && Cleared(h) && OkFrom(old(desc), 1)
        && cur <= |ms| && (Image(), ms[cur..]) == SweepFrom(h, 1, ms)
        && (cur == |ms| <==> NoneSkipped(old(desc), ms, 1))
        && (RallocExact.AssertionsHold(h, ms) && RallocExact.Right(h, Image(), ms) <==> RallocExact.Fit(old(desc), ms))
    {
      avail, partial := None, map[];
      ghost var h := Image();
      Mark(roots);
      var ms := Ascending(marked, Top(desc));
      SweepOutcome(h, ms);
      RallocExact.RecoveryIff(h, ms);
      cur := Sweep(ms);
    }
  }

  /** What the sweep of a small superblock with marks in it does. */
  lemma SweepSmall(h: Heap, d: nat, ms: seq<nat>)
    requires d < |h.desc| && DescOk(h.desc, d) && IsSmall(h.desc, d) && ms != [] && forall m :: m in ms ==> SbOf(m) == d
    ensures h.desc[d].blockSize > 0
    ensures var f, sc := FreedIn(h.desc, d, ms), h.desc[d].heap.value;
      && (f != [] ==> f[|f| - 1] >= d * SBSIZE)
      && SweepOne(h, d, ms) ==
        h.(mem := LinkUp(h.mem, f, None), nextFree := h.nextFree[d := None],
        anchor := h.anchor[d := NewAnchor(h.desc, d, f)],
           nextPartial := h.nextPartial[d := if f == [] then None else Get(h.partial, sc, None)], partial := if f == []
             then h.partial else h.partial[sc := Some(d)])
  {
    hide LinkUp, FreedIn, NewAnchor;
    FreedRange(h.desc, d, ms);
    var f := FreedIn(h.desc, d, ms);
    assert f != [] ==> f[|f| - 1] in f;
  }

  lemma RebuiltAnchor(desc: seq<Desc>, d: nat, ms: seq<nat>, head: Option<nat>, count: nat)
    requires d < |desc| && desc[d].blockSize > 0
    requires
      var f := FreedIn(desc, d, ms);
      head == LastOr(f, None) && count == |f| && (f != [] ==> f[|f| - 1] >= d * SBSIZE)
    ensures NewAnchor(desc, d, FreedIn(desc, d, ms)) ==
            if count == 0 then Anchor(desc[d].maxcount, 0, Full)
              else Anchor((head.value - d * SBSIZE) / desc[d].blockSize, count, Partial)
  {
    hide FreedIn;
  }

  lemma {:induction false} LinkUpConcat(mem: map<nat, Option<nat>>, f: seq<nat>, g: seq<nat>, head: Option<nat>)
    ensures LinkUp(mem, f + g, head) == LinkUp(LinkUp(mem, f, head), g, LastOr(f, head))
    ensures LastOr(f + g, head) == LastOr(g, LastOr(f, head))
    decreases |f|
  {
    if f == [] {
      assert f + g == g;
    } else {
      assert (f + g)[1..] == f[1..] + g;
      LinkUpConcat(mem[f[0] := head], f[1..], g, Some(f[0]));
    }
  }

  lemma NoLinks(mem: map<nat, Option<nat>>)
    ensures LinkUp(mem, [], None) == mem
  {
  }

  lemma OneIsInside(desc: seq<Desc>)
    requires OkFrom(desc, 1)
    ensures 1 <= |desc|
  {
  }

  /** The marks in superblock d are the ones up to stop. */
  lemma StopIsRight(ms: seq<nat>, start: nat, d: nat)
    requires start <= |ms|
    ensures var stop := start + InSb(ms[start..], d);
      && stop <= |ms| && (forall i :: start <= i < stop ==> SbOf(ms[i]) == d) && (stop < |ms| ==> SbOf(ms[stop]) != d)
  {
    forall i | start <= i < start + InSb(ms[start..], d) ensures SbOf(ms[i]) == d {
      assert ms[start..][i - start] == ms[i];
    }
  }

  /** f has been freed before the mark at cur, and the rest of the marks free the rest. */
  ghost predicate SoFar(desc: seq<Desc>, d: nat, ms: seq<nat>, start: nat, cur: nat, stop: nat, last: nat,
        f: seq<nat>) {
    && d < |desc| && desc[d].blockSize > 0 && start <= cur <= stop <= |ms|
    && f + Freed(ms[cur..stop], last, desc[d].blockSize, EndOf(desc, d)) == FreedIn(desc, d, ms[start..stop])
  }

  lemma SoFarStep(desc: seq<Desc>, d: nat, ms: seq<nat>, start: nat, cur: nat, stop: nat, last: nat, f: seq<nat>)
    requires SoFar(desc, d, ms, start, cur, stop, last, f) && cur < stop
    ensures SoFar(desc, d, ms, start, cur + 1, stop, ms[cur] + desc[d].blockSize, f
      + FreeRun(last, ms[cur], desc[d].blockSize))
  {
    var bs, end := desc[d].blockSize, EndOf(desc, d);
    assert ms[cur..stop][1..] == ms[cur + 1..stop];
    var run, rest := FreeRun(last, ms[cur], bs), Freed(ms[cur + 1..stop], ms[cur] + bs, bs, end);
    assert (f + run) + rest == f + (run + rest);
  }

  lemma SoFarDone(desc: seq<Desc>, d: nat, ms: seq<nat>, start: nat, stop: nat, last: nat, f: seq<nat>)
    requires SoFar(desc, d, ms, start, stop, stop, last, f)
    ensures f + FreeRun(last, EndOf(desc, d), desc[d].blockSize) == FreedIn(desc, d, ms[start..stop])
  {
    assert ms[stop..stop] == [];
  }
}
