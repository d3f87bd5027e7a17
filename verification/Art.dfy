/** P-ART: lookup, insert and remove of the adaptive radix tree, on one thread. */
module Art {
  import opened Common
  import opened ArtNode
  import opened ArtTree
  import opened ArtPrefix
  import opened ArtEdits
  import opened ArtSteps
  import opened ArtShort
  import opened ArtTorn

  /** Below a node, on k's way or not. */
  lemma LookStep(g: Heap, path: Paths, root: nat, x: nat, k: Key)
    requires Inv(g, path, root) && x in g && x in path && Ok(g[x].kids)
    ensures Find(g, path, x, k) == if path[x] < k then FindAt(g, path, Child(g[x].kids, k[|path[x]|]), k) else None
  {
    hide Inv;
    if path[x] < k { FindStep(g, path, root, x, k); } else { FindNeeds(g, path, x, k); }
  }

  lemma EmptyTree(h: Heap, path: Paths, root: nat)
    requires h == map[root := Inner(0, Prefix(0, [0, 0, 0, 0]), New(N256))] && path == map[root := []]
      && Untouched(New(N256))
    ensures Means(h, path, root, map[])
  {
    hide Child, Ok, New;
    assert NodeOk(h, path, root);
    assert New(N256).kind.N256? by { NewKind(N256); }
  }

  lemma NewKind(kind: Kind)
    ensures New(kind).kind == kind
  {
  }

  lemma RootShort(h: Heap, path: Paths, root: nat)
    requires Inv(h, path, root)
    ensures root in h && root in path && path[root] == []
  {
    hide Child, Ok;
  }

  /** The bytes compared so far, with those of the node's own prefix. */
  lemma Compared(p: Key, k: Key, level: nat)
    requires level <= |p| < |k|
    ensures p < k <==> p[..level] == k[..level] && p[level..] == k[level..|p|]
  {
    assert p == p[..level] + p[level..] && k[..|p|] == k[..level] + k[level..|p|];
  }

  // ---- keys that insert takes ----

  predicate Comparable(q: Key, k: Key) { q <= k || k <= q }

  /** No stored key is a prefix of k or has k as a prefix. */
  ghost predicate Free(m: map<Key, nat>, k: Key) { forall q: Key :: q in m ==> !Comparable(q, k) }

  /** A stored key comparable with k lies on k's way down. */
  lemma Near(h: Heap, path: Paths, root: nat, x: nat, k: Key, q: Key)
    requires Inv(h, path, root) && x in h && x in path && Leads(h, path, root, x) && path[x] < k && Comparable(q, k)
      && Find(h, path, root, q).Some?
    ensures Ok(h[x].kids) && Child(h[x].kids, k[|path[x]|]).Some?
      && FindAt(h, path, Child(h[x].kids, k[|path[x]|]), q).Some?
  {
    hide Child, Ok, OneParent, NodeOk, Find, Leads;
    if |q| <= |path[x]| {
      assert q <= path[x];
      FindAbove(h, path, root, root, x, q);
    }
    assert path[x] < q && q[|path[x]|] == k[|path[x]|];
    FindThrough(h, path, root, root, x, q);
    FindStep(h, path, root, x, q);
  }

  lemma FreeEmpty(h: Heap, path: Paths, root: nat, m: map<Key, nat>, x: nat, k: Key)
    requires Means(h, path, root, m) && x in h && x in path && Leads(h, path, root, x) && path[x] < k && Ok(h[x].kids)
      && Child(h[x].kids, k[|path[x]|]).None?
    ensures Free(m, k)
  {
    hide Child, Ok, Inv, Find, Leads;
    forall q: Key | q in m ensures !Comparable(q, k) {
      assert Find(h, path, root, q).Some?;
      if Comparable(q, k) { Near(h, path, root, x, k, q); }
    }
  }

  lemma FreeFork(h: Heap, path: Paths, root: nat, m: map<Key, nat>, x: nat, k: Key, r: Ref, w: Key)
    requires Means(h, path, root, m) && x in h && x in path && Leads(h, path, root, x) && path[x] < k && Ok(h[x].kids)
      && Child(h[x].kids, k[|path[x]|]) == Some(r)
    requires (r.Ptr? ==> r.id in path) && w < k && w < Goal(path, r) && k[|w|] != Goal(path, r)[|w|]
    ensures Free(m, k)
  {
    hide Child, Ok, Inv, Find, Leads;
    forall q: Key | q in m ensures !Comparable(q, k) {
      assert Find(h, path, root, q).Some?;
      if Comparable(q, k) {
        Near(h, path, root, x, k, q);
        if !(Goal(path, r) <= q) { FindAtNeeds(h, path, r, q); }
      }
    }
  }

  /** What the prefix of a node says of a key. */
  datatype Comparison = Matched | Differs(at: nat, byte: Byte, rest: seq<Byte>) | PastEnd

  /**
   * k follows path p from level on up to `at`, where they differ; rest holds what comes after in p, as far as it is
   * stored.
   */
  ghost predicate DiffersAt(p: Key, k: Key, level: nat, at: nat, byte: Byte, rest: seq<Byte>) {
    && level <= at < |p| && at < |k| && p[level..at] == k[level..at] && p[at] == byte != k[at]
    && |rest| == MAX_STORED && forall j :: 0 <= j < |p| - at - 1 && j < MAX_STORED ==> rest[j] == p[at + 1 + j]
  }

  class Tree {
    var nodes: Heap
    const root: nat
    var brk: nat
    ghost var mended: Heap
    ghost var path: Paths
    ghost var top: nat
    ghost var log: seq<Heap>

    /**
     * The tree, torn or not, stands for m; mended is the tree in order, and the log tells how the nodes
     * came about, store by store.
     */
    ghost predicate Valid(m: map<Key, nat>)
      reads this
    {
      && Torn(nodes, mended, path) && Means(mended, path, root, m) && Bounded(mended, top) && Trace(log, nodes)
      && forall x: nat :: x in nodes ==> x < brk
    }

    /** No prefix is torn. */
    ghost predicate Quiet()
      reads this
    {
      nodes == mended
    }

    /** All states persisted since `was` stand for m. */
    ghost predicate Since(was: seq<Heap>, m: map<Key, nat>)
      reads this
    {
      was <= log && forall i :: |was| <= i < |log| ==> Stands(log[i], root, m)
    }

    /** The states persisted since `was` stand for m up to some point and for m' from there on. */
    ghost predicate Switched(was: seq<Heap>, m: map<Key, nat>, m': map<Key, nat>)
      reads this
    {
      was <= log && exists c: nat :: SwitchAt(log, |was|, c, root, m, m')
    }

    constructor ()
      ensures Valid(map[]) && Quiet()
    {
      root := 0;
      nodes := map[0 := Inner(0, Prefix(0, [0, 0, 0, 0]), New(N256))];
      brk := 1;
      mended := map[0 := Inner(0, Prefix(0, [0, 0, 0, 0]), New(N256))];
      path := map[0 := []];
      top := 0;
      log := [map[0 := Inner(0, Prefix(0, [0, 0, 0, 0]), New(N256))]];
      new;
      NewUntouched(N256);
      EmptyTree(nodes, path, root);
    }

    /** A restart from a persisted state, torn as it may be. */
    constructor Reopen(h: Heap, at: nat, next: nat, ghost g: Heap, ghost ways: Paths, ghost high: nat,
          ghost m: map<Key, nat>)
      requires Torn(h, g, ways) && Means(g, ways, at, m) && Bounded(g, high) && forall x: nat :: x in h ==> x < next
      ensures Valid(m) && nodes == h && root == at
    {
      root, nodes, brk := at, h, next;
      mended, path, top, log := g, ways, high, [h];
    }

    /** What a descent for k knows at node x, having consumed `level` bytes. */
    ghost predicate At(k: Key, x: nat, level: nat)
      reads this
    {
      && x in nodes && x in mended && x in path && Leads(mended, path, root, x) && level <= |k| && level <= |path[x]|
      && PrefixOk(mended[x].prefix, path[x][level..])
      && (x == root ==> level == 0)
    }

    /**
     * lookup, on a tree torn or not: wrong exactly for stored keys on whose way it is led astray by a
     * prefix that is too long, and for keys that deceive it with nothing skipped on their way.
     */
    method Lookup(k: Key, ghost m: map<Key, nat>) returns (r: Option<nat>)
      requires Valid(m)
      ensures r != MapAt(m, k) <==>
        (k in m && Strays(nodes, path, root, k, 0)) || (Deceives(m, k) && Plain(nodes, path, root, k, 0))
      ensures Quiet() ==> (r != MapAt(m, k) <==> Deceives(m, k))
    {
      r := Descend(k, m);
      hide Trace, Find, Strays, Plain, Deceives, Answers, Torn, Means;
      AnswersMean(nodes, mended, path, root, m, top, k, r);
    }

    method Descend(k: Key, ghost m: map<Key, nat>) returns (r: Option<nat>)
      requires Valid(m)
      ensures Answers(nodes, mended, path, root, k, r)
    {
      hide Trace, Child, Ok, Find, Leads, Inv, Refers, Bounded, OnTrack, Answers, Agrees, Landing, Unseen, Torn,
        Means, Loose,
           PrefixOk;
      var x, level, optimistic := root, 0, false;
      ghost var base: nat := 0;
      StartsAt(nodes, mended, path, root, m);
      TrackStarts(nodes, mended, path, root, k);
      while true
        invariant x in nodes && x in mended && x in path && level <= |k| && Leads(mended, path, root, x)
        invariant OnTrack(nodes, mended, path, root, k, x, level, base, optimistic)
        decreases |k| - level
      {
        NodeFacts(nodes, mended, path, root, m, x);
        var o, next := CheckPrefix(nodes[x], k, level, path[x]);
        if o == NoMatch {
          TrackEnds(nodes, mended, path, root, k, x, level, base, optimistic);
          return None;
        }
        assert Inv(mended, path, root) by { MeansInv(mended, path, root, m); }
        TrackStep(nodes, mended, path, root, k, x, level, base, optimistic);
        Onward(level, |path[x]|, nodes[x].prefix.count);
        if o == OptimisticMatch { optimistic := true; }
        if |k| <= next { return None; }
        var b := k[next];
        var c := GetChild(nodes[x].kids, b);
        match c {
          case None => return None;
          case Some(Leaf(q, v)) =>
            if next < |k| - 1 || optimistic {
              return if q == k then Some(v) else None;
            } else {
              return Some(v);
            }
          case Some(Ptr(y)) =>
            NextNode(nodes, mended, path, root, m, x, b, y);
            base := |path[x]| + 1;
            x, level := y, next + 1;
        }
      }
    }

    /** getAnyChildTid. */
    method AnyKey(x: nat, ghost m: map<Key, nat>) returns (q: Key)
      requires Valid(m) && x in mended && x in path && Leads(mended, path, root, x) && x != root
      ensures path[x] < q && Find(mended, path, root, q).Some?
    {
      hide Trace, Child, Ok, OneParent, NodeOk, Find, Leads, Torn;
      var y := x;
      while true
        invariant y in mended && y in path && Leads(mended, path, root, y) && y != root && path[x] <= path[y]
        decreases top - PathLen(path, y)
      {
        TornAt(nodes, mended, path, y);
        KidFacts(mended, path, root, y, 0);
        var c;
        ghost var b;
        c, b := AnyChild(nodes[y].kids);
        KidFacts(mended, path, root, y, b);
        match c {
          case Leaf(k, v) =>
            LeafFound(mended, path, root, y, b, k, v);
            return k;
          case Ptr(z) =>
            assert Refers(mended, y, b, z);
            LeadsOn(mended, path, root, root, y, b, z);
            Apart(mended, path, root, y, b, z);
            KidFacts(mended, path, root, z, 0);
            y := z;
        }
      }
    }

    /** The repair at the head of checkPrefixPessimistic: rebuilds a prefix that does not fit the node's level. */
    method Mend(ghost p: nat, ghost c: Byte, x: nat, ghost k: Key, level: nat, ghost m: map<Key, nat>)
      requires Valid(m) && At(k, x, level) && Hangs(p, c, x, level)
      modifies `nodes, `mended, `log
      ensures Valid(m) && At(k, x, level) && Hangs(p, c, x, level) && Since(old(log), m)
      ensures x != root ==> nodes[x] == mended[x]
      ensures nodes == old(nodes)[x := old(nodes)[x].(prefix := nodes[x].prefix)]
      ensures old(Quiet()) ==> Quiet() && nodes == old(nodes) && log == old(log)
    {
      hide Trace, Child, Ok, OneParent, NodeOk, Find, Leads, Inv, Torn, Loose, Bounded, Refers, SameShape, Means,
        PrefixOk;
      MendFacts(nodes, mended, path, root, m, x, level);
      var n := nodes[x];
      if n.prefix.count + level != n.level {
        var kr := AnyKey(x, m);
        var pre := SetPrefix(kr[level..], n.level - level);
        MendedPrefix(kr, path[x], level);
        MendStep(nodes, mended, path, root, top, m, p, c, x, pre);
        ghost var was := nodes;
        nodes := nodes[x := n.(prefix := pre)];
        mended := Shortened(mended, Ptr(x), pre);
        OnePrefix(was, nodes, x);
        Record(was, m);
      } else if x != root {
        MendStep(nodes, mended, path, root, top, m, p, c, x, n.prefix);
        assert Shortened(nodes, Ptr(x), n.prefix) == nodes;
        mended := Shortened(mended, Ptr(x), n.prefix);
      }
    }

    /**
     * The rest of checkPrefixPessimistic: compares every byte, taking those not stored from some key below the node.
     */
    method CheckPrefixPessimistic(x: nat, k: Key, level: nat, ghost m: map<Key, nat>) returns (r: Comparison)
      requires Valid(m) && At(k, x, level) && (x != root ==> nodes[x] == mended[x])
      ensures r == Matched ==> |path[x]| <= |k| && path[x][level..] == k[level..|path[x]|]
      ensures r.Differs? ==> x != root && DiffersAt(path[x], k, level, r.at, r.byte, r.rest)
      ensures r == PastEnd ==> |k| < |path[x]| && path[x][level..|k|] == k[level..]
    {
      hide Trace, Child, Ok, OneParent, NodeOk, Find, Leads, Inv, Torn, Means, DiffersAt;
      RootWhole(nodes, mended, path, root, m, x);
      var p := nodes[x].prefix;
      var i, l, kt := 0, level, [];
      ghost var w := path[x];
      while i < p.count
        invariant i <= p.count && l == level + i <= |k| && w[level..l] == k[level..l]
        invariant i > MAX_STORED ==> w < kt
      {
        if i == MAX_STORED { kt := AnyKey(x, m); }
        if l == |k| {
          assert k[level..] == k[level..l];
          return PastEnd;
        }
        var cur := if i >= MAX_STORED then kt[l] else p.bytes[i];
        assert cur == w[l] by { assert w[level..][i] == w[l]; }
        if cur != k[l] {
          var rest := Remaining(x, k, level, i, kt, m);
          return Differs(l, cur, rest);
        }
        assert w[level..l + 1] == w[level..l] + [w[l]] && k[level..l + 1] == k[level..l] + [k[l]];
        i, l := i + 1, l + 1;
      }
      return Matched;
    }

    /** What comes after the byte of the prefix at which the key parts, as far as it can be stored. */
    method Remaining(x: nat, k: Key, level: nat, i: nat, known: Key, ghost m: map<Key, nat>) returns (rest: seq<Byte>)
      requires Valid(m) && At(k, x, level) && x != root && nodes[x] == mended[x] && i < nodes[x].prefix.count
      requires
        var w, l := path[x], level + i;
        && |w| == level + nodes[x].prefix.count && l < |k| && w[level..l] == k[level..l] && w[l] != k[l]
        && (i >= MAX_STORED ==> w < known)
      ensures level + i < |path[x]| && DiffersAt(path[x], k, level, level + i, path[x][level + i], rest)
    {
      hide Trace, Child, Ok, OneParent, NodeOk, Find, Leads, Inv, Torn, Means;
      var p := nodes[x].prefix;
      var l := level + i;
      if p.count > MAX_STORED {
        var kt := known;
        if i < MAX_STORED { kt := AnyKey(x, m); }
        rest := RestOf(kt, l + 1, p.count - i - 1);
      } else {
        rest := RestOf(p.bytes, i + 1, p.count - i - 1);
        DiffersInBytes(p, path[x], k, level, l, rest);
      }
    }

    /** The bytes from `at` on, n of them or as many as are stored. */
    static method RestOf(bytes: seq<Byte>, at: nat, n: nat) returns (r: seq<Byte>)
      requires at + n <= |bytes|
      ensures |r| == MAX_STORED && forall j :: 0 <= j < n && j < MAX_STORED ==> r[j] == bytes[at + j]
    {
      r := [0, 0, 0, 0];
      var j := 0;
      while j < Min(n, MAX_STORED)
        invariant j <= Min(n, MAX_STORED) && |r| == MAX_STORED && forall i :: 0 <= i < j ==> r[i] == bytes[at + i]
      {
        r := r[j := bytes[at + j]];
        j := j + 1;
      }
    }

    /** A new 4-way node with two children. */
    static method Fork(b: Byte, r: Ref, d: Byte, t: Ref) returns (l: Layout)
      requires b != d
      ensures Ok(l) && Sized(l)
      ensures forall e: Byte :: Child(l, e) == if e == b then Some(r) else if e == d then Some(t) else None
    {
      hide Trace, Child, Ok;
      NewUntouched(N4);
      NewKind(N4);
      var ok;
      ok, l := ArtNode.Insert(New(N4), b, r);
      ok, l := ArtNode.Insert(l, d, t);
    }

    /** x hangs at byte c of p. */
    ghost predicate Hangs(p: nat, c: Byte, x: nat, level: nat)
      reads this
    {
      x != root ==> Refers(mended, p, c, x) && p in path && Leads(mended, path, root, p) && level == |path[p]| + 1
    }

    /** insertAndUnlock on the tree: into the node, or into a copy that takes its place. */
    method AddLeaf(p: nat, c: Byte, x: nat, b: Byte, k: Key, v: nat, ghost level: nat, ghost m: map<Key, nat>)
      requires Valid(m) && x in mended && x in path && Leads(mended, path, root, x) && path[x] + [b] <= k
        && Ok(mended[x].kids) && Child(mended[x].kids, b).None?
      requires Hangs(p, c, x, level)
      modifies `nodes, `mended, `brk, `path, `log
      ensures Valid(m[k := v]) && Since(old(log), m[k := v]) && (old(Quiet()) ==> Quiet())
    {
      hide Trace, Child, Ok, OneParent, NodeOk, Find, Leads, Torn;
      TornAt(nodes, mended, path, x);
      KidFacts(mended, path, root, x, b);
      RootKind(mended, path, root);
      var kids, copied := InsertChild(nodes[x].kids, b, Leaf(k, v));
      ghost var g0, path0 := mended, path;
      FoundNone(mended, path, root, x, b);
      if !copied {
        SetStep(mended, path, root, x, b, Some(Leaf(k, v)), kids);
        StoreKids(x, b, Some(Leaf(k, v)), kids);
      } else {
        SwapKids(p, c, x, b, Some(Leaf(k, v)), kids, level, m);
      }
      AddedMeans(g0, path0, mended, path, root, m, path0[x] + [b], k, v);
    }

    /** One child of a node changes in place. */
    method StoreKids(x: nat, ghost b: Byte, ghost o: Option<Ref>, kids: Layout)
      requires Torn(nodes, mended, path) && x in nodes && x in mended && Trace(log, nodes)
      requires Inv(mended, path, root) && Inv(SetKids(mended, x, kids), path, root) && Binds(nodes[x].kids, kids, b, o)
      modifies `nodes, `mended, `log
      ensures mended == SetKids(old(mended), x, kids) && nodes == SetKids(old(nodes), x, kids)
      ensures Torn(nodes, mended, path) && log == old(log) + [nodes] && Trace(log, nodes)
    {
      hide Torn, Inv, Binds, Trace, OneStore;
      TornSet(nodes, mended, path, x, kids);
      ghost var was, g := nodes, mended;
      nodes, mended := SetKids(nodes, x, kids), SetKids(mended, x, kids);
      StoresPointer(was, g, path, nodes, mended, path, root, x, b, o);
      TraceOn(log, was, nodes);
      log := log + [nodes];
    }

    /** The copy n of x takes its place. */
    method SwapKids(p: nat, c: Byte, x: nat, ghost b: Byte, ghost o: Option<Ref>, kids: Layout, ghost level: nat,
          ghost m: map<Key, nat>)
      requires Valid(m) && x in mended && x in path && Hangs(p, c, x, level) && x != root
      requires Binds(mended[x].kids, kids, b, o) && Sized(kids)
        && (o.Some? ==> o.value.Leaf? && path[x] + [b] <= o.value.key)
      modifies `nodes, `mended, `brk, `path, `log
      ensures Rebinds(old(mended), old(path), mended, path, root, old(path)[x] + [b], o)
      ensures Bounded(mended, top) && (forall y: nat :: y in nodes ==> y < brk) && Torn(nodes, mended, path)
      ensures log == old(log) + [nodes] && Trace(log, nodes) && (old(Quiet()) ==> Quiet())
    {
      hide Child, Ok, OneParent, NodeOk, Find, Leads, Inv, Torn, Rebinds, Trace, OneStore;
      var n := brk;
      Apart(mended, path, root, p, c, x);
      TornAt(nodes, mended, path, p);
      TornAt(nodes, mended, path, x);
      KidFacts(mended, path, root, p, c);
      RootKind(mended, path, root);
      NotIn(nodes, mended, path, n);
      var kidsP := Change(nodes[p].kids, c, Ptr(n));
      SwapStep(mended, path, root, p, c, kidsP, x, n, kids, b, o);
      TornSwap(nodes, mended, path, p, kidsP, x, n, kids);
      SwapStores(nodes, mended, path, root, p, c, kidsP, x, n, kids, b, o);
      ghost var was := nodes;
      path := SwappedPath(path, x, n);
      nodes, mended := Swapped(nodes, p, kidsP, x, n, kids), Swapped(mended, p, kidsP, x, n, kids);
      brk := brk + 1;
      TraceOn(log, was, nodes);
      log := log + [nodes];
    }

    /** The split of a prefix at byte `at`. */
    method SplitPrefix(p: nat, c: Byte, x: nat, k: Key, v: nat, level: nat, at: nat, byte: Byte, rest: seq<Byte>,
          ghost m: map<Key, nat>)
      requires Valid(m) && At(k, x, level) && Hangs(p, c, x, level) && DiffersAt(path[x], k, level, at, byte, rest)
        && path[x][..level] == k[..level] && x != root && nodes[x] == mended[x]
      modifies `nodes, `mended, `brk, `path, `top, `log
      ensures Valid(m[k := v]) && Since(old(log), m[k := v]) && (old(Quiet()) ==> Quiet())
    {
      hide Trace, Child, Ok, OneParent, NodeOk, Find, Leads, Inv, Torn;
      RootShort(mended, path, root);
      Apart(mended, path, root, p, c, x);
      TornAt(nodes, mended, path, p);
      KidFacts(mended, path, root, p, c);
      RootKind(mended, path, root);
      var n, pre := brk, nodes[x].prefix;
      NotIn(nodes, mended, path, n);
      var kids2 := Fork(k[at], Leaf(k, v), byte, Ptr(x));
      // the new node keeps the stored bytes
      var node := Inner(at, pre.(count := at - level), kids2);
      var kidsP := Change(nodes[p].kids, c, Ptr(n));
      var pre' := SetPrefix(rest, pre.count - (at - level + 1));
      SplitForks(mended, path, root, p, c, kidsP, x, pre', n, node, k, v, level, byte, rest);
      hide Forks;
      ForkNow(p, c, kidsP, Ptr(x), pre', n, node, path[x][..at], k, v, m);
    }

    /** The store that makes a new node visible, and the one that sets the prefix of the node below it. */
    method ForkNow(p: nat, ghost c: Byte, kidsP: Layout, r: Ref, pre: Prefix, n: nat, node: Inner, ghost w: Key,
          k: Key, v: nat, ghost m: map<Key, nat>)
      requires Valid(m) && p in mended && p in path && Leads(mended, path, root, p)
        && (r.Ptr? ==> r.id in mended && r.id in path) && n == brk && node.level == |w|
      requires Forks(mended, path, root, p, c, kidsP, r, pre, n, node, w, k, v)
      modifies `nodes, `mended, `brk, `path, `top, `log
      ensures Valid(m[k := v]) && Since(old(log), m[k := v]) && (old(Quiet()) ==> Quiet())
    {
      hide Forks, Leads, Find, Inv, Adds, Child, Ok, Torn, Means, Bounded, PrefixOk, SetKids, Forked, Stands, Trace,
           OneStore;
      ForkStep(mended, path, root, p, c, kidsP, r, pre, n, node, w, k, v);
      ForkAll(nodes, mended, path, root, top, m, p, c, kidsP, r, pre, n, node, w, k, v);
      ForkStores(nodes, p, kidsP, r, pre, n, node);
      var was := nodes;
      mended, path := Forked(mended, p, kidsP, r, pre, n, node), path[n := w];
      top := if top < |w| then |w| else top;
      brk := brk + 1;
      nodes := SetKids(was, p, kidsP)[n := node];
      Record(was, m[k := v]);
      if r.Ptr? {
        ghost var mid := nodes;
        nodes := nodes[r.id := nodes[r.id].(prefix := pre)];
        OnePrefix(mid, nodes, r.id);
        Record(mid, m[k := v]);
      }
    }

    /** The state is persisted. */
    ghost method Record(was: Heap, m: map<Key, nat>)
      requires Torn(nodes, mended, path) && Means(mended, path, root, m) && Trace(log, was) && OneStore(was, nodes)
      modifies `log
      ensures log == old(log) + [nodes] && Stands(nodes, root, m) && Trace(log, nodes)
    {
      hide Trace, OneStore;
      TraceOn(log, was, nodes);
      log := log + [nodes];
    }

    /** A leaf for another key where k belongs: both go under a new node, unless one is a prefix of the other. */
    method SplitLeaf(x: nat, b: Byte, q: Key, u: nat, k: Key, v: nat, ghost m: map<Key, nat>) returns (ok: bool)
      requires Valid(m) && x in mended && x in path && Leads(mended, path, root, x) && path[x] + [b] <= k
        && Ok(mended[x].kids) && Child(mended[x].kids, b) == Some(Leaf(q, u))
      modifies `nodes, `mended, `brk, `path, `top, `log
      ensures ok <==> Free(m, k)
      ensures if ok then Valid(m[k := v]) && Since(old(log), m[k := v]) && (old(Quiet()) ==> Quiet())
              else Valid(m) && nodes == old(nodes) && mended == old(mended) && log == old(log)
    {
      hide Trace, Child, Ok, OneParent, NodeOk, Find, Leads, Inv, Torn, Bounded, PrefixOk;
      TornAt(nodes, mended, path, x);
      LeafFound(mended, path, root, x, b, q, u);
      KidFacts(mended, path, root, x, b);
      RootKind(mended, path, root);
      assert q in m;
      var l := nodes[x].level + 1;
      if |q| <= l { assert Comparable(q, k); return false; }
      var at := Common(q, k, l);
      if at == |q| || at == |k| { assert Comparable(q, k); return false; }
      var n := brk;
      NotIn(nodes, mended, path, n);
      var kids2 := Fork(k[at], Leaf(k, v), q[at], Leaf(q, u));
      var node := Inner(at, SetPrefix(k[l..], at - l), kids2);
      var kids := Change(nodes[x].kids, b, Ptr(n));
      FreeFork(mended, path, root, m, x, k, Leaf(q, u), k[..at]);
      LeafForks(mended, path, root, x, b, kids, q, u, n, node, k, v);
      hide Forks, Free, Binds;
      ForkNow(x, b, kids, Leaf(q, u), node.prefix, n, node, k[..at], k, v, m);
      return true;
    }

    /** How far two keys that agree up to l go together. */
    static method Common(q: Key, k: Key, l: nat) returns (at: nat)
      requires l <= |q| && l <= |k| && q[..l] == k[..l]
      ensures l <= at <= |q| && at <= |k| && q[..at] == k[..at] && (at < |q| && at < |k| ==> q[at] != k[at])
    {
      at := l;
      while at < |q| && at < |k| && q[at] == k[at]
        invariant l <= at <= |q| && at <= |k| && q[..at] == k[..at]
      {
        at := at + 1;
      }
    }

    /**
     * insert, on a tree torn or not: succeeds exactly for keys that no stored key is a prefix of, nor
     * the other way round, and mends the nodes it comes through.
     */
    method Insert(k: Key, v: nat, ghost m: map<Key, nat>) returns (ok: bool)
      requires Valid(m)
      modifies this
      ensures ok <==> k != [] && Free(m, k)
      ensures Valid(if ok then m[k := v] else m) && Switched(old(log), m, if ok then m[k := v] else m)
      ensures old(Quiet()) ==> Quiet() && (!ok ==> nodes == old(nodes))
    {
      hide Trace, Child, Ok, Find, Leads, Inv, Free, Bounded, Refers, Torn, Means, PrefixOk, Stands;
      var p: nat, c: Byte, x, level := 0, 0, root, 0;
      StartsAt(nodes, mended, path, root, m);
      while true
        invariant Valid(m) && At(k, x, level) && Hangs(p, c, x, level) && path[x][..level] == k[..level]
        invariant Since(old(log), m) && (old(Quiet()) ==> Quiet() && nodes == old(nodes))
        decreases |k| - level
      {
        ghost var mid := log;
        var done, b, y := InsertStep(p, c, x, k, v, level, m);
        if done.Some? {
          SwitchLater(old(log), mid, m, if done.value then m[k := v] else m);
          return done.value;
        }
        p, c, x, level := x, b, y, nodes[x].level + 1;
      }
    }

    /** One node on the way of insert: done, or on to node y at byte b. */
    method InsertStep(p: nat, c: Byte, x: nat, k: Key, v: nat, level: nat, ghost m: map<Key, nat>)
          returns (done: Option<bool>, b: Byte, y: nat)
      requires Valid(m) && At(k, x, level) && Hangs(p, c, x, level) && path[x][..level] == k[..level]
      modifies `nodes, `mended, `brk, `path, `top, `log
      ensures done.Some? ==>
        && (done.value <==> k != [] && Free(m, k))
        && Valid(if done.value then m[k := v] else m) && Switched(old(log), m, if done.value then m[k := v] else m)
        && (old(Quiet()) ==> Quiet() && (!done.value ==> nodes == old(nodes)))
      ensures done.None? ==>
        && Valid(m) && Since(old(log), m) && (old(Quiet()) ==> Quiet() && nodes == old(nodes))
        && x in nodes && x != y && nodes[x].level + 1 > level && At(k, y, nodes[x].level + 1)
        && Hangs(x, b, y, nodes[x].level + 1) && path[y][..nodes[x].level + 1] == k[..nodes[x].level + 1]
    {
      hide Trace, Child, Ok, Find, Leads, Inv, Free, Bounded, DiffersAt, Refers, Torn, Means, PrefixOk, Stands;
      b, y := 0, root;
      Mend(p, c, x, k, level, m);
      ghost var mid := log;
      var r := CheckPrefixPessimistic(x, k, level, m);
      NodeFacts(nodes, mended, path, root, m, x);
      Compared2(path[x], k, level);
      if r == PastEnd || (r == Matched && nodes[x].level >= |k|) {
        if x != root { NotFree(mended, path, root, top, m, x, k); }
        Switch(old(log), mid, m, m);
        done := Some(false);
      } else if r.Differs? {
        SplitIsFree(mended, path, root, m, p, c, x, k, level, r.at, r.byte, r.rest);
        SplitPrefix(p, c, x, k, v, level, r.at, r.byte, r.rest, m);
        Switch(old(log), mid, m, m[k := v]);
        done := Some(true);
      } else {
        b := k[nodes[x].level];
        var child := GetChild(nodes[x].kids, b);
        if child.Some? && child.value.Ptr? {
          y := child.value.id;
          NextNode(nodes, mended, path, root, m, x, b, y);
          SameBytes(path[x], path[y], k, b);
          done := None;
        } else {
          var ok := InsertHere(p, c, x, b, child, k, v, level, m);
          Switch(old(log), mid, m, if ok then m[k := v] else m);
          done := Some(ok);
        }
      }
    }

    /** The node is the one k belongs to. */
    method InsertHere(p: nat, c: Byte, x: nat, b: Byte, child: Option<Ref>, k: Key, v: nat, ghost level: nat,
          ghost m: map<Key, nat>) returns (ok: bool)
      requires Valid(m) && At(k, x, level) && Hangs(p, c, x, level) && path[x] < k && b == k[|path[x]|]
      requires Ok(mended[x].kids) && Child(mended[x].kids, b) == child && (child.Some? ==> child.value.Leaf?)
      modifies `nodes, `mended, `brk, `path, `top, `log
      ensures ok <==> Free(m, k)
      ensures if ok then Valid(m[k := v]) && Since(old(log), m[k := v]) && (old(Quiet()) ==> Quiet())
              else Valid(m) && nodes == old(nodes) && mended == old(mended) && log == old(log)
    {
      hide Trace, Child, Ok, Find, Leads, Inv, Free, Bounded, Refers, Torn, Means, PrefixOk;
      assert path[x] + [b] <= k;
      match child {
        case None =>
          FreeEmpty(mended, path, root, m, x, k);
          AddLeaf(p, c, x, b, k, v, level, m);
          return true;
        case Some(Leaf(q, u)) =>
          ok := SplitLeaf(x, b, q, u, k, v, m);
      }
    }

    lemma Switch(was: seq<Heap>, mid: seq<Heap>, m: map<Key, nat>, m': map<Key, nat>)
      requires was <= mid && (forall i :: |was| <= i < |mid| ==> Stands(mid[i], root, m)) && Since(mid, m')
      ensures Switched(was, m, m')
    {
      hide Trace, Stands;
      assert SwitchAt(log, |was|, |mid|, root, m, m');
    }

    lemma SwitchLater(was: seq<Heap>, mid: seq<Heap>, m: map<Key, nat>, m': map<Key, nat>)
      requires was <= mid && (forall i :: |was| <= i < |mid| ==> Stands(mid[i], root, m)) && Switched(mid, m, m')
      ensures Switched(was, m, m')
    {
      hide Trace, Stands;
      var c: nat :| SwitchAt(log, |mid|, c, root, m, m');
      assert SwitchAt(log, |was|, c, root, m, m');
    }

    /** remove, on a tree in order: unbinds the key; other keys stay. */
    method Remove(k: Key, ghost m: map<Key, nat>)
      requires Valid(m) && Quiet()
      modifies this
      ensures Valid(m - {k}) && Quiet() && Since(old(log), m - {k})
    {
      hide Trace, Child, Ok, OneParent, NodeOk, Find, Leads, Inv, Bounded, Torn, Means, PrefixOk, Refers, Agrees,
        Landing,
        Unseen;
      var p: nat, c: Byte, x, level := 0, 0, root, 0;
      StartsAt(nodes, mended, path, root, m);
      while true
        invariant Valid(m) && Quiet() && log == old(log) && At(k, x, level) && Hangs(p, c, x, level)
        invariant Find(mended, path, root, k) == if path[x][..level] == k[..level] then Find(mended, path, x, k)
          else None
        decreases |k| - level
      {
        NodeFacts(nodes, mended, path, root, m, x);
        var o, next := CheckPrefix(nodes[x], k, level, path[x]);
        WholeStep(mended, path, root, m, x, k, level, o == NoMatch, next);
        if o == NoMatch { Unbound(k, m); return; }
        var b := k[next];
        var child := GetChild(nodes[x].kids, b);
        match child {
          case None => Unbound(k, m); return;
          case Some(Leaf(q, v)) =>
            if q == k { RemoveLeaf(p, c, x, b, k, v, level, m); } else { Unbound(k, m); }
            return;
          case Some(Ptr(y)) =>
            NextNode(nodes, mended, path, root, m, x, b, y);
            p, c, x, level := x, b, y, next + 1;
        }
      }
    }

    lemma Unbound(k: Key, m: map<Key, nat>)
      requires Valid(m) && Find(mended, path, root, k).None?
      ensures m - {k} == m
    {
      hide Trace, Find, Inv;
      assert MapAt(m, k).None?;
    }

    /** Takes the leaf out; a node left with one child gives way to it. */
    method RemoveLeaf(p: nat, c: Byte, x: nat, b: Byte, k: Key, v: nat, ghost level: nat, ghost m: map<Key, nat>)
      requires Valid(m) && Quiet() && At(k, x, level) && Hangs(p, c, x, level) && Ok(mended[x].kids)
        && Child(mended[x].kids, b) == Some(Leaf(k, v))
      modifies `nodes, `mended, `brk, `path, `log
      ensures Valid(m - {k}) && Quiet() && Since(old(log), m - {k})
    {
      hide Trace, Child, Ok, OneParent, NodeOk, Find, Leads, Inv, Torn;
      TornAt(nodes, mended, path, x);
      KidFacts(mended, path, root, x, b);
      RootKind(mended, path, root);
      var count := GetCount(nodes[x].kids);
      if count == 2 && x != root {
        MergeNode(p, c, x, b, k, v, level, m);
      } else {
        ghost var g0, path0 := mended, path;
        var kids, copied := RemoveChild(nodes[x].kids, b, x == root);
        if !copied {
          SetStep(mended, path, root, x, b, None, kids);
          StoreKids(x, b, None, kids);
        } else {
          SwapKids(p, c, x, b, None, kids, level, m);
        }
        DroppedMeans(g0, path0, mended, path, root, m, x, b, k, v);
      }
    }

    /** The merge of a two-child node with its parent pointer; such a node is always 4-way. */
    method MergeNode(p: nat, c: Byte, x: nat, b: Byte, k: Key, v: nat, ghost level: nat, ghost m: map<Key, nat>)
      requires Valid(m) && Quiet() && At(k, x, level) && Hangs(p, c, x, level) && x != root && Ok(mended[x].kids)
        && Child(mended[x].kids, b) == Some(Leaf(k, v))
      requires mended[x].kids.count == 2
      modifies `nodes, `mended, `path, `log
      ensures Valid(m - {k}) && Quiet() && Since(old(log), m - {k})
    {
      hide Trace, Child, Ok, OneParent, NodeOk, Find, Leads, Inv, Torn;
      KidFacts(mended, path, root, x, b);
      var r, d := SecondChild(nodes[x].kids, b);
      KidFacts(mended, path, root, x, d);
      Apart(mended, path, root, p, c, x);
      KidFacts(mended, path, root, p, c);
      RootKind(mended, path, root);
      var kidsP := Change(nodes[p].kids, c, r);
      var pre := nodes[x].prefix;
      if r.Ptr? {
        assert Refers(mended, x, d, r.id);
        Apart(mended, path, root, x, d, r.id);
        pre := AddPrefixBefore(nodes[r.id].prefix, nodes[x].prefix, d);
        MergedPrefix(path[x], path[r.id], level, d, nodes[r.id].prefix, nodes[x].prefix);
      }
      MergeStep(mended, path, root, p, c, kidsP, x, b, k, v, d, r, pre);
      DropsMeans(mended, path, Merged(mended, p, kidsP, x, r, pre), path - {x}, root, m, k);
      TornMerge(nodes, mended, path, p, kidsP, x, r, pre, level);
      MergeIsStore(nodes, mended, path, root, p, c, kidsP, x, r, pre);
      MergeNow(p, kidsP, x, r, pre, m - {k});
    }

    /** The store that takes x out, and the one that sets the prefix of the node in its place. */
    method MergeNow(p: nat, kidsP: Layout, x: nat, r: Ref, pre: Prefix, ghost m: map<Key, nat>)
      requires Quiet() && p in nodes && x != p && (r.Ptr? ==> r.id in nodes && r.id != x)
      requires Torn(SetKids(nodes, p, kidsP) - {x}, Merged(mended, p, kidsP, x, r, pre), path - {x})
      requires Torn(Merged(nodes, p, kidsP, x, r, pre), Merged(mended, p, kidsP, x, r, pre), path - {x})
      requires Means(Merged(mended, p, kidsP, x, r, pre), path - {x}, root, m) && Bounded(mended, top)
        && forall y: nat :: y in nodes ==> y < brk
      requires Trace(log, nodes) && OneStore(nodes, SetKids(nodes, p, kidsP) - {x})
      modifies `nodes, `mended, `path, `log
      ensures Valid(m) && Quiet() && Since(old(log), m)
    {
      hide Torn, Means, SetKids, Merged, Stands, Bounded, Trace, OneStore;
      MergeStores(nodes, p, kidsP, x, r, pre, top, brk);
      var was := nodes;
      mended, path := Merged(mended, p, kidsP, x, r, pre), path - {x};
      nodes := SetKids(was, p, kidsP) - {x};
      Record(was, m);
      if r.Ptr? {
        ghost var mid := nodes;
        nodes := nodes[r.id := nodes[r.id].(prefix := pre)];
        OnePrefix(mid, nodes, r.id);
        Record(mid, m);
      }
    }
  }

  predicate Comes(was: nat, c: nat, n: nat) { was <= c <= n }

  /** From index `was` on the states of log stand for m before c and for m' from c on. */
  ghost predicate SwitchAt(log: seq<Heap>, was: nat, c: nat, root: nat, m: map<Key, nat>, m': map<Key, nat>) {
    && Comes(was, c, |log|)
    && (forall i :: was <= i < c ==> Stands(log[i], root, m))
    && (forall i :: c <= i < |log| ==> Stands(log[i], root, m'))
  }

  lemma Onward(level: nat, L: nat, n: nat)
    ensures Landing(level, L, n) >= level
  {
  }

  lemma NotIn(h: Heap, g: Heap, path: Paths, n: nat)
    requires Torn(h, g, path) && n !in h
    ensures n !in g
  {
    assert n !in g.Keys;
  }

  lemma RootWhole(h: Heap, g: Heap, path: Paths, root: nat, m: map<Key, nat>, x: nat)
    requires Torn(h, g, path) && Means(g, path, root, m) && x in g && x in path
    ensures x in h && root in path && path[root] == [] && h[x].prefix.count <= |path[x]|
  {
    hide Inv, Find, Torn;
    TornAt(h, g, path, x);
    RootShort(g, path, root);
  }

  /** What the repair knows of its node. */
  lemma MendFacts(h: Heap, g: Heap, path: Paths, root: nat, m: map<Key, nat>, x: nat, level: nat)
    requires Torn(h, g, path) && Means(g, path, root, m) && x in g && x in path && level <= |path[x]|
      && (x == root ==> level == 0)
    ensures NodeTorn(h, g, path, x) && h[x].level == |path[x]|
    ensures x == root ==> h[x].prefix.count + level == h[x].level
    ensures h[x].prefix.count + level == h[x].level ==> PrefixOk(h[x].prefix, path[x][level..])
    ensures PrefixOk(g[x].prefix, path[x][level..]) ==> g[x].prefix.count + level == |path[x]|
  {
    hide Inv, Find, Torn;
    TornAt(h, g, path, x);
    KidFacts(g, path, root, x, 0);
    RootShort(g, path, root);
  }

  lemma MendedPrefix(kr: Key, w: Key, level: nat)
    requires w < kr && level <= |w|
    ensures |kr[level..]| >= Min(|w| - level, MAX_STORED)
    ensures PrefixOk(SetPrefix(kr[level..], |w| - level), w[level..])
  {
    SetPrefixOk(kr[level..], w[level..]);
  }

  /** The repair of one node. */
  lemma MendStep(h: Heap, g: Heap, path: Paths, root: nat, top: nat, m: map<Key, nat>, p: nat, c: Byte, x: nat,
        pre: Prefix)
    requires Torn(h, g, path) && Means(g, path, root, m) && Bounded(g, top) && Refers(g, p, c, x) && p in path
    requires x in g && x in path && |path[p]| + 1 <= |path[x]| && PrefixOk(pre, path[x][|path[p]| + 1..])
    ensures x in h && Torn(Shortened(h, Ptr(x), pre), Shortened(g, Ptr(x), pre), path)
    ensures
      var g' := Shortened(g, Ptr(x), pre);
      && Means(g', path, root, m) && Bounded(g', top) && Refers(g', p, c, x)
      && forall y: nat :: Leads(g, path, root, y) ==> Leads(g', path, root, y)
  {
    hide Child, Ok, Find, Leads, Inv, Torn;
    var g' := Shortened(g, Ptr(x), pre);
    TornAt(h, g, path, x);
    TornMend(h, g, path, x, pre, |path[p]| + 1);
    Reprefixed(g, path, root, m, p, c, x, pre);
    forall y: nat | Leads(g, path, root, y) ensures Leads(g', path, root, y) { LeadsShape(g, g', path, root, y); }
  }

  lemma StartsAt(h: Heap, g: Heap, path: Paths, root: nat, m: map<Key, nat>)
    requires Torn(h, g, path) && Means(g, path, root, m)
    ensures root in h && root in g && root in path && Leads(g, path, root, root) && path[root] == []
      && PrefixOk(g[root].prefix, path[root][0..])
  {
    hide Inv, Find, Torn;
    StartAt(g, path, root);
    TornAt(h, g, path, root);
  }

  lemma NodeFacts(h: Heap, g: Heap, path: Paths, root: nat, m: map<Key, nat>, x: nat)
    requires Torn(h, g, path) && Means(g, path, root, m) && x in g
    ensures NodeTorn(h, g, path, x) && h[x].kids == g[x].kids && Ok(h[x].kids) && h[x].level == |path[x]|
    ensures root in path && path[root] == []
  {
    hide Inv, Find, Torn, Ok, Child;
    TornAt(h, g, path, x);
    KidFacts(g, path, root, x, 0);
    RootShort(g, path, root);
  }

  /** The child a byte leads to. */
  lemma NextNode(h: Heap, g: Heap, path: Paths, root: nat, m: map<Key, nat>, x: nat, b: Byte, y: nat)
    requires Torn(h, g, path) && Means(g, path, root, m) && x in g && x in path && Leads(g, path, root, x)
    requires Ok(g[x].kids) && Child(g[x].kids, b) == Some(Ptr(y))
    ensures Refers(g, x, b, y) && Leads(g, path, root, y) && y in h && y in g && y in path && y != root
    ensures path[x] + [b] <= path[y] && PrefixOk(g[y].prefix, path[y][|path[x]| + 1..])
  {
    hide Child, Ok, Find, Leads, Inv, Torn;
    ChildRefers(g, x, b, y);
    LeadsOn(g, path, root, root, x, b, y);
    Apart(g, path, root, x, b, y);
    TornAt(h, g, path, y);
  }

  /** One node of a tree in order, on the way of remove. */
  lemma WholeStep(g: Heap, path: Paths, root: nat, m: map<Key, nat>, x: nat, k: Key, level: nat, none: bool, next: nat)
    requires Means(g, path, root, m) && x in g && x in path && Ok(g[x].kids) && level <= |k| && level <= |path[x]|
      && PrefixOk(g[x].prefix, path[x][level..])
    requires none <==> |k| <= |path[x]| || !Agrees(g[x].prefix, path[x], k, level)
    requires !none ==> next == Landing(level, |path[x]|, g[x].prefix.count)
    requires Find(g, path, root, k) == if path[x][..level] == k[..level] then Find(g, path, x, k) else None
    ensures none ==> Find(g, path, root, k).None?
    ensures !none ==>
      && next == |path[x]| < |k|
      && Find(g, path, root, k) == if path[x] < k then FindAt(g, path, Child(g[x].kids, k[next]), k) else None
  {
    hide Child, Ok, Find, Inv;
    if level <= |path[x]| < |k| { Compared(path[x], k, level); }
    LookStep(g, path, root, x, k);
  }

  lemma MergeStores(h: Heap, p: nat, kidsP: Layout, x: nat, r: Ref, pre: Prefix, top: nat, n: nat)
    requires p in h && x != p && (r.Ptr? ==> r.id in h && r.id != x) && Bounded(h, top)
      && forall y: nat :: y in h ==> y < n
    ensures
      var h1, h2 := SetKids(h, p, kidsP) - {x}, Merged(h, p, kidsP, x, r, pre);
      && Bounded(h2, top) && (forall y: nat :: y in h1 ==> y < n) && (forall y: nat :: y in h2 ==> y < n)
      && (if r.Ptr? then r.id in h1 && h2 == h1[r.id := h1[r.id].(prefix := pre)] else h2 == h1)
  {
  }

  lemma ForkStores(h: Heap, p: nat, kidsP: Layout, r: Ref, pre: Prefix, n: nat, node: Inner)
    requires p in h && (r.Ptr? ==> r.id in h) && n !in h && forall x: nat :: x in h ==> x < n
    ensures
      var h1 := SetKids(h, p, kidsP)[n := node];
      && (forall x: nat :: x in h1 ==> x < n + 1)
        && (forall x: nat :: x in Forked(h, p, kidsP, r, pre, n, node) ==> x < n + 1)
      && (if r.Ptr? then r.id in h1 && Forked(h, p, kidsP, r, pre, n, node) == h1[r.id := h1[r.id].(prefix := pre)]
          else Forked(h, p, kidsP, r, pre, n, node) == h1)
  {
  }

  /** The fork on the tree, after each of its two stores, and on what it stands for. */
  lemma ForkAll(h: Heap, g: Heap, path: Paths, root: nat, top: nat, m: map<Key, nat>, p: nat, c: Byte, kidsP: Layout,
        r: Ref, pre: Prefix, n: nat, node: Inner, w: Key, k: Key, v: nat)
    requires Torn(h, g, path) && Means(g, path, root, m) && Bounded(g, top) && node.level == |w| && n !in h
      && p in g && (r.Ptr? ==> r.id in g && r.id in path)
    requires Forks(g, path, root, p, c, kidsP, r, pre, n, node, w, k, v)
    requires Adds(g, path, Forked(g, p, kidsP, r, pre, n, node), path[n := w], root, k, v)
    ensures p in h && (r.Ptr? ==> r.id in h)
    ensures Torn(SetKids(h, p, kidsP)[n := node], Forked(g, p, kidsP, r, pre, n, node), path[n := w])
    ensures Torn(Forked(h, p, kidsP, r, pre, n, node), Forked(g, p, kidsP, r, pre, n, node), path[n := w])
    ensures Means(Forked(g, p, kidsP, r, pre, n, node), path[n := w], root, m[k := v])
    ensures Bounded(Forked(g, p, kidsP, r, pre, n, node), if top < |w| then |w| else top)
    ensures OneStore(h, SetKids(h, p, kidsP)[n := node])
  {
    hide Inv, Find, Child, Ok, PrefixOk, Adds, Torn, Binds;
    TornAt(h, g, path, p);
    if r.Ptr? { TornAt(h, g, path, r.id); }
    AddsMeans(g, path, Forked(g, p, kidsP, r, pre, n, node), path[n := w], root, m, k, v);
    TornFork(h, g, path, p, kidsP, r, pre, n, node, w, |path[p]| + 1, |w| + 1);
    AddsInv(g, path, Forked(g, p, kidsP, r, pre, n, node), path[n := w], root, k, v);
    hide OneStore, Forked, Forks, Means, Bounded;
    StoresPointer(h, g, path, SetKids(h, p, kidsP)[n := node], Forked(g, p, kidsP, r, pre, n, node), path[n := w],
      root, p,
        c, Some(Ptr(n)));
  }

  lemma AddsInv(h: Heap, path: Paths, h': Heap, path': Paths, root: nat, k: Key, v: nat)
    requires Adds(h, path, h', path', root, k, v)
    ensures Inv(h', path', root)
  {
    hide Inv, Find;
  }

  /** Replacing a node by its copy is the store of one child pointer. */
  lemma SwapStores(h: Heap, g: Heap, path: Paths, root: nat, p: nat, c: Byte, kidsP: Layout, x: nat, n: nat,
        kids: Layout, b: Byte, o: Option<Ref>)
    requires Torn(h, g, path) && Inv(g, path, root) && p in h && x in h && x != p && n !in h && p in g && x in g
      && x in path && Binds(h[p].kids, kidsP, c, Some(Ptr(n)))
    requires Torn(Swapped(h, p, kidsP, x, n, kids), Swapped(g, p, kidsP, x, n, kids), SwappedPath(path, x, n))
    requires Rebinds(g, path, Swapped(g, p, kidsP, x, n, kids), SwappedPath(path, x, n), root, path[x] + [b], o)
    ensures OneStore(h, Swapped(h, p, kidsP, x, n, kids))
  {
    hide Inv, Torn, Binds, OneStore, Find;
    StoresPointer(h, g, path, Swapped(h, p, kidsP, x, n, kids), Swapped(g, p, kidsP, x, n, kids),
        SwappedPath(path, x, n), root, p, c, Some(Ptr(n)));
  }

  /** So is taking a node out, before the prefix of the one in its place is set. */
  lemma MergeIsStore(h: Heap, g: Heap, path: Paths, root: nat, p: nat, c: Byte, kidsP: Layout, x: nat, r: Ref,
        pre: Prefix)
    requires Torn(h, g, path) && Inv(g, path, root) && p in h && x in h && x != p && p in g
      && (r.Ptr? ==> r.id in g) && Binds(h[p].kids, kidsP, c, Some(r))
    requires Torn(SetKids(h, p, kidsP) - {x}, Merged(g, p, kidsP, x, r, pre), path - {x})
    requires Inv(Merged(g, p, kidsP, x, r, pre), path - {x}, root)
    ensures OneStore(h, SetKids(h, p, kidsP) - {x})
  {
    hide Inv, Torn, Binds, OneStore, Merged;
    StoresPointer(h, g, path, SetKids(h, p, kidsP) - {x}, Merged(g, p, kidsP, x, r, pre), path - {x}, root, p, c,
        Some(r));
  }

  lemma RootKind(h: Heap, path: Paths, root: nat)
    requires Inv(h, path, root)
    ensures root in h && h[root].kids.kind.N256?
  {
    hide Child, Ok;
  }

  lemma FoundNone(h: Heap, path: Paths, root: nat, x: nat, b: Byte)
    requires Inv(h, path, root) && x in h && x in path && Leads(h, path, root, x) && Ok(h[x].kids)
      && Child(h[x].kids, b).None?
    ensures forall q: Key :: path[x] + [b] <= q ==> Find(h, path, root, q).None?
  {
    hide Child, Ok, Inv, Find, Leads;
    forall q: Key | path[x] + [b] <= q ensures Find(h, path, root, q).None? { FoundBefore(h, path, root, x, b, q); }
  }

  lemma AddedMeans(h: Heap, path: Paths, h': Heap, path': Paths, root: nat, m: map<Key, nat>, w: Key, k: Key, v: nat)
    requires Means(h, path, root, m) && Rebinds(h, path, h', path', root, w, Some(Leaf(k, v))) && w <= k
    requires forall q: Key :: w <= q ==> Find(h, path, root, q).None?
    ensures Means(h', path', root, m[k := v])
  {
    hide Inv, Find;
    forall q: Key ensures Find(h', path', root, q) == MapAt(m[k := v], q) {
      assert Find(h, path, root, q) == MapAt(m, q);
    }
  }

  lemma AddsMeans(h: Heap, path: Paths, h': Heap, path': Paths, root: nat, m: map<Key, nat>, k: Key, v: nat)
    requires Means(h, path, root, m) && Adds(h, path, h', path', root, k, v)
    ensures Means(h', path', root, m[k := v])
  {
    hide Inv, Find;
    forall q: Key ensures Find(h', path', root, q) == MapAt(m[k := v], q) {
      assert Find(h, path, root, q) == MapAt(m, q);
    }
  }

  /** Where a key leaves a path. */
  lemma SplitPaths(p: Key, k: Key, level: nat, at: nat)
    requires level <= at < |p| && at < |k| && p[level..at] == k[level..at] && p[..level] == k[..level] && p[at] != k[at]
    ensures p[..at] < k && p[..at] < p && p[..at][level..] == p[level..][..at - level]
  {
    assert p[..at] == p[..level] + p[level..at] && k[..at] == k[..level] + k[level..at];
  }

  lemma SplitForks(h: Heap, path: Paths, root: nat, p: nat, c: Byte, kidsP: Layout, x: nat, pre: Prefix, n: nat,
        node: Inner, k: Key, v: nat, level: nat, byte: Byte, rest: seq<Byte>)
    requires Inv(h, path, root) && Refers(h, p, c, x) && p in path && x in h && x in path && level == |path[p]| + 1
      && n !in h
    requires Binds(h[p].kids, kidsP, c, Some(Ptr(n))) && (if p == root then kidsP.kind.N256? else Sized(kidsP))
    requires path[p] + [c] <= path[x] && PrefixOk(h[x].prefix, path[x][level..])
    requires DiffersAt(path[x], k, level, node.level, byte, rest) && path[x][..level] == k[..level]
    requires node.prefix == h[x].prefix.(count := node.level - level)
      && pre == SetPrefix(rest, h[x].prefix.count - (node.level - level + 1))
    requires Ok(node.kids) && Sized(node.kids)
    requires forall e: Byte ::
      Child(node.kids, e) == if e == k[node.level] then Some(Leaf(k, v)) else if e == byte then Some(Ptr(x)) else None
    ensures Forks(h, path, root, p, c, kidsP, Ptr(x), pre, n, node, path[x][..node.level], k, v)
  {
    hide Child, Ok, Inv;
    SplitPaths(path[x], k, level, node.level);
    CutOk(h[x].prefix, path[x][level..], node.level - level);
    SetPrefixOk(rest, path[x][node.level + 1..]);
  }

  lemma LeafForks(h: Heap, path: Paths, root: nat, x: nat, b: Byte, kids: Layout, q: Key, u: nat, n: nat, node: Inner,
        k: Key, v: nat)
    requires Inv(h, path, root) && x in h && x in path && Ok(h[x].kids) && Child(h[x].kids, b) == Some(Leaf(q, u))
      && n !in h
    requires Binds(h[x].kids, kids, b, Some(Ptr(n))) && (if x == root then kids.kind.N256? else Sized(kids))
    requires var l, at := |path[x]| + 1, node.level;
      && l <= at < |q| && at < |k| && q[..at] == k[..at] && q[at] != k[at] && path[x] + [b] <= k
        && node.prefix == SetPrefix(k[l..], at - l)
      && Ok(node.kids) && Sized(node.kids) && forall e: Byte ::
        Child(node.kids, e) == if e == k[at] then Some(Leaf(k, v)) else if e == q[at] then Some(Leaf(q, u)) else None
    ensures Forks(h, path, root, x, b, kids, Leaf(q, u), node.prefix, n, node, k[..node.level], k, v)
  {
    hide Child, Ok, Inv;
    var l, at := |path[x]| + 1, node.level;
    assert k[..at][l..] == k[l..][..at - l];
    SetPrefixOk(k[l..], k[..at][l..]);
  }

  lemma SameBytes(w: Key, z: Key, k: Key, b: Byte)
    requires w < k && b == k[|w|] && w + [b] <= z
    ensures |w| + 1 <= |k| && |w| + 1 <= |z| && z[..|w| + 1] == k[..|w| + 1]
  {
    assert z[..|w| + 1] == w + [b] && k[..|w| + 1] == w + [b];
  }

  lemma Compared2(p: Key, k: Key, level: nat)
    requires level <= |p| && level <= |k| && p[..level] == k[..level]
    ensures |p| <= |k| && p[level..] == k[level..|p|] ==> p <= k
    ensures |k| <= |p| && p[level..|k|] == k[level..] ==> k <= p
  {
    assert p == p[..level] + p[level..] && k == k[..level] + k[level..];
    if |p| <= |k| { assert k[..|p|] == k[..level] + k[level..|p|]; }
    if |k| <= |p| { assert p[..|k|] == p[..level] + p[level..|k|]; }
  }

  lemma NotFree(h: Heap, path: Paths, root: nat, top: nat, m: map<Key, nat>, x: nat, k: Key)
    requires Means(h, path, root, m) && Bounded(h, top) && x in path && Leads(h, path, root, x) && x != root
      && k <= path[x]
    ensures !Free(m, k)
  {
    hide Inv, Find, Leads;
    var q := AnyLeaf(h, path, root, top, x);
    assert q in m && Comparable(q, k);
  }

  lemma DiffersInBytes(p: Prefix, w: Key, k: Key, level: nat, at: nat, rest: seq<Byte>)
    requires level <= at < |w| && at < |k| && PrefixOk(p, w[level..]) && p.count <= MAX_STORED
      && w[level..at] == k[level..at] && w[at] != k[at]
    requires |rest| == MAX_STORED && forall j :: 0 <= j < |w| - at - 1 ==> rest[j] == p.bytes[at - level + 1 + j]
    ensures DiffersAt(w, k, level, at, w[at], rest)
  {
    forall j | 0 <= j < |w| - at - 1 ensures rest[j] == w[at + 1 + j] {
      assert w[level..][at - level + 1 + j] == w[at + 1 + j];
    }
  }

  lemma SplitIsFree(h: Heap, path: Paths, root: nat, m: map<Key, nat>, p: nat, c: Byte, x: nat, k: Key, level: nat,
        at: nat, byte: Byte, rest: seq<Byte>)
    requires Means(h, path, root, m) && x in path && DiffersAt(path[x], k, level, at, byte, rest)
      && path[x][..level] == k[..level]
    requires Refers(h, p, c, x) && p in path && Leads(h, path, root, p) && level == |path[p]| + 1
    ensures Free(m, k)
  {
    hide Child, Ok, Find, Leads, Inv, Refers;
    SplitPaths(path[x], k, level, at);
    HangFacts(h, path, root, p, c, x, k);
    FreeFork(h, path, root, m, p, k, Ptr(x), path[x][..at]);
  }

  lemma HangFacts(h: Heap, path: Paths, root: nat, p: nat, c: Byte, x: nat, k: Key)
    requires Inv(h, path, root) && Refers(h, p, c, x) && p in path && x in path && |path[p]| + 1 <= |k|
      && path[x][..|path[p]| + 1] == k[..|path[p]| + 1]
    requires |path[p]| + 1 <= |path[x]|
    ensures p in h && Ok(h[p].kids) && path[p] < k && k[|path[p]|] == c && Child(h[p].kids, c) == Some(Ptr(x))
  {
    hide Child, Ok, Inv;
    Apart(h, path, root, p, c, x);
  }

  lemma MergedPrefix(w: Key, z: Key, level: nat, d: Byte, p: Prefix, nodeP: Prefix)
    requires level <= |w| < |z| && w + [d] <= z && PrefixOk(p, z[|w| + 1..]) && PrefixOk(nodeP, w[level..])
    ensures PrefixOk(AddPrefixBefore(p, nodeP, d), z[level..])
  {
    JoinOk(p, z[|w| + 1..], nodeP, w[level..], d);
    assert w[level..] + [d] + z[|w| + 1..] == z[level..];
  }

  lemma DropsMeans(h: Heap, path: Paths, h': Heap, path': Paths, root: nat, m: map<Key, nat>, k: Key)
    requires Means(h, path, root, m) && Drops(h, path, h', path', root, k)
    ensures Means(h', path', root, m - {k})
  {
    hide Inv, Find;
    forall q: Key ensures Find(h', path', root, q) == MapAt(m - {k}, q) {
      assert Find(h, path, root, q) == MapAt(m, q);
    }
  }

  lemma DroppedMeans(h: Heap, path: Paths, h': Heap, path': Paths, root: nat, m: map<Key, nat>, x: nat, b: Byte,
        k: Key, v: nat)
    requires Means(h, path, root, m) && x in h && x in path && Leads(h, path, root, x) && Ok(h[x].kids)
      && Child(h[x].kids, b) == Some(Leaf(k, v))
    requires Rebinds(h, path, h', path', root, path[x] + [b], None)
    ensures Means(h', path', root, m - {k})
  {
    hide Inv, Find, Child, Ok, Leads;
    LeafFound(h, path, root, x, b, k, v);
    forall q: Key ensures Find(h', path', root, q) == MapAt(m - {k}, q) {
      assert Find(h, path, root, q) == MapAt(m, q);
      if path[x] + [b] <= q { FoundBefore(h, path, root, x, b, q); }
    }
  }
}
