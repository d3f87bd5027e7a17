/**
 * The tree between the two stores of a prefix split or merge, and after any number of crashes there:
 * some nodes have a prefix that is too long or too short.  What lookup makes of it, and its repair.
 */
module ArtTorn {
  import opened Common
  import opened ArtNode
  import opened ArtTree
  import opened ArtPrefix
  import opened ArtEdits
  import opened ArtSteps
  import opened ArtShort

  /** h is g, but for prefixes that may be too long or too short. */
  ghost predicate Torn(h: Heap, g: Heap, path: Paths) {
    && h.Keys == g.Keys
    && forall x: nat :: x in h ==> NodeTorn(h, g, path, x)
  }

  predicate NodeTorn(h: Heap, g: Heap, path: Paths, x: nat) {
    x in h && x in g && x in path && h[x] == g[x].(prefix := h[x].prefix) && Loose(h[x].prefix, path[x])
  }

  /** A persisted state, torn or not, that stands for m. */
  ghost predicate Stands(h: Heap, root: nat, m: map<Key, nat>) {
    exists g, path :: Torn(h, g, path) && Means(g, path, root, m)
  }

  lemma TornAt(h: Heap, g: Heap, path: Paths, x: nat)
    requires Torn(h, g, path) && (x in h || x in g)
    ensures NodeTorn(h, g, path, x) && h[x].kids == g[x].kids && h[x].level == g[x].level
  {
    assert x in g.Keys;
  }

  /** A node in order has a prefix that is right for its length. */
  lemma WholeIsLoose(p: Prefix, w: Key, level: nat)
    requires level <= |w| && PrefixOk(p, w[level..])
    ensures Loose(p, w) && p.count + level == |w|
  {
  }

  // ---- prefixes do not matter for what is bound ----

  ghost predicate SameShape(a: Heap, b: Heap) {
    a.Keys == b.Keys && forall x: nat :: x in a ==> x in b && a[x].kids == b[x].kids && a[x].level == b[x].level
  }

  lemma TornShape(h: Heap, g: Heap, path: Paths)
    requires Torn(h, g, path)
    ensures SameShape(h, g)
  {
    forall x: nat | x in h ensures x in g && h[x].kids == g[x].kids && h[x].level == g[x].level {
      TornAt(h, g, path, x);
    }
  }

  lemma {:induction false} FindShape(a: Heap, b: Heap, path: Paths, x: nat, k: Key)
    requires SameShape(a, b)
    ensures Find(a, path, x, k) == Find(b, path, x, k)
    decreases if PathLen(path, x) <= |k| then |k| - PathLen(path, x) else 0
  {
    hide Child, Ok;
    if x in a && x in path && Ok(a[x].kids) && path[x] < k && Child(a[x].kids, k[|path[x]|]).Some? {
      var c := Child(a[x].kids, k[|path[x]|]).value;
      if c.Ptr? && PathLen(path, c.id) > |path[x]| { FindShape(a, b, path, c.id, k); }
    }
  }

  lemma {:induction false} LeadsShape(a: Heap, b: Heap, path: Paths, y: nat, x: nat)
    requires SameShape(a, b) && Leads(a, path, y, x)
    ensures Leads(b, path, y, x)
    decreases if PathLen(path, y) <= PathLen(path, x) then PathLen(path, x) - PathLen(path, y) else 0
  {
    hide Child, Ok;
    if y != x { LeadsShape(a, b, path, Child(a[y].kids, path[x][|path[y]|]).value.id, x); }
  }

  // ---- the stores, on the tree and on what it stands for ----

  lemma TornSet(h: Heap, g: Heap, path: Paths, x: nat, kids: Layout)
    requires Torn(h, g, path) && x in h
    ensures x in g && Torn(SetKids(h, x, kids), SetKids(g, x, kids), path)
  {
    hide Loose;
    TornAt(h, g, path, x);
    forall y: nat | y in h ensures NodeTorn(SetKids(h, x, kids), SetKids(g, x, kids), path, y) {
      TornAt(h, g, path, y);
    }
  }

  lemma TornSwap(h: Heap, g: Heap, path: Paths, p: nat, kidsP: Layout, x: nat, n: nat, kids: Layout)
    requires Torn(h, g, path) && p in h && x in h && x != p && n !in h
    ensures p in g && x in g && x in path
    ensures Torn(Swapped(h, p, kidsP, x, n, kids), Swapped(g, p, kidsP, x, n, kids), SwappedPath(path, x, n))
  {
    hide Loose;
    TornAt(h, g, path, p);
    TornAt(h, g, path, x);
    var h', g', path' := Swapped(h, p, kidsP, x, n, kids), Swapped(g, p, kidsP, x, n, kids), SwappedPath(path, x, n);
    assert h'.Keys == g'.Keys;
    forall y: nat | y in h' ensures NodeTorn(h', g', path', y) { if y != n { TornAt(h, g, path, y); } }
  }

  /** Before the prefix of r is set, and after. */
  lemma TornFork(h: Heap, g: Heap, path: Paths, p: nat, kidsP: Layout, r: Ref, pre: Prefix, n: nat, node: Inner,
        w: Key, l: nat, l': nat)
    requires Torn(h, g, path) && p in h && n !in h && l <= |w| && PrefixOk(node.prefix, w[l..])
    requires r.Ptr? ==> r.id in h && r.id in path && l' <= |path[r.id]| && PrefixOk(pre, path[r.id][l'..])
    ensures p in g && (r.Ptr? ==> r.id in g)
    ensures Torn(SetKids(h, p, kidsP)[n := node], Forked(g, p, kidsP, r, pre, n, node), path[n := w])
    ensures Torn(Forked(h, p, kidsP, r, pre, n, node), Forked(g, p, kidsP, r, pre, n, node), path[n := w])
  {
    TornAt(h, g, path, p);
    WholeIsLoose(node.prefix, w, l);
    if r.Ptr? { TornAt(h, g, path, r.id); WholeIsLoose(pre, path[r.id], l'); }
    hide Loose, PrefixOk;
    var h1, h2, g2, path' := SetKids(h, p, kidsP)[n := node], Forked(h, p, kidsP, r, pre, n, node),
      Forked(g, p, kidsP, r, pre, n, node), path[n := w];
    assert h1.Keys == g2.Keys && h2.Keys == g2.Keys;
    forall y: nat | y in h1 ensures NodeTorn(h1, g2, path', y) && NodeTorn(h2, g2, path', y) {
      if y != n { TornAt(h, g, path, y); }
    }
  }

  lemma TornMerge(h: Heap, g: Heap, path: Paths, p: nat, kidsP: Layout, x: nat, r: Ref, pre: Prefix, l: nat)
    requires Torn(h, g, path) && p in h && x in h && x != p
    requires r.Ptr? ==> r.id in h && r.id != x && r.id in path && l <= |path[r.id]| && PrefixOk(pre, path[r.id][l..])
    ensures p in g && (r.Ptr? ==> r.id in g)
    ensures Torn(SetKids(h, p, kidsP) - {x}, Merged(g, p, kidsP, x, r, pre), path - {x})
    ensures Torn(Merged(h, p, kidsP, x, r, pre), Merged(g, p, kidsP, x, r, pre), path - {x})
  {
    TornAt(h, g, path, p);
    if r.Ptr? { TornAt(h, g, path, r.id); WholeIsLoose(pre, path[r.id], l); }
    hide Loose, PrefixOk;
    var h1, h2, g2, path' := SetKids(h, p, kidsP) - {x}, Merged(h, p, kidsP, x, r, pre), Merged(g, p, kidsP, x, r, pre),
      path - {x};
    assert h1.Keys == g2.Keys && h2.Keys == g2.Keys;
    forall y: nat | y in h1 ensures NodeTorn(h1, g2, path', y) && NodeTorn(h2, g2, path', y) { TornAt(h, g, path, y); }
  }

  // ---- the repair ----

  /** A node may get another prefix that is right. */
  lemma Reprefixed(g: Heap, path: Paths, root: nat, m: map<Key, nat>, p: nat, c: Byte, x: nat, pre: Prefix)
    requires Means(g, path, root, m) && Refers(g, p, c, x) && p in path && x in g && x in path
    requires |path[p]| + 1 <= |path[x]| && PrefixOk(pre, path[x][|path[p]| + 1..])
    ensures SameShape(g, Shortened(g, Ptr(x), pre)) && Means(Shortened(g, Ptr(x), pre), path, root, m)
  {
    hide Child, Ok, Find;
    var g' := Shortened(g, Ptr(x), pre);
    Reprefix(g, path, root, p, c, x, pre);
    hide Inv;
    forall k: Key ensures Find(g', path, root, k) == MapAt(m, k) { FindShape(g, g', path, root, k); }
  }

  lemma Reprefix(g: Heap, path: Paths, root: nat, p: nat, c: Byte, x: nat, pre: Prefix)
    requires Inv(g, path, root) && Refers(g, p, c, x) && p in path && x in g && x in path
    requires |path[p]| + 1 <= |path[x]| && PrefixOk(pre, path[x][|path[p]| + 1..])
    ensures Inv(Shortened(g, Ptr(x), pre), path, root)
  {
    hide Child, Ok, PrefixOk, Inv;
    var g' := Shortened(g, Ptr(x), pre);
    Domains(g, path, root);
    Apart(g, path, root, p, c, x);
    KidFacts(g, path, root, p, c);
    RootKindOf(g, path, root);
    SoleParent(g, path, root, p, c, x);
    forall u: nat, d: Byte, y: nat ensures Refers(g', u, d, y) <==> Refers(g, u, d, y) { }
    assert OnlyFrom(g, p, c, {}, {x}) && OnlyFrom(g, p, c, {}, {});
    assert NewRefsOk(g, g', p, c, {}) by { SameRefs(g, g', path, root, p, c); }
    hide Refers, OnlyFrom, NewRefsOk;
    EditKeeps(g, path, g', path, root, p, c, Some(Ptr(x)), {}, {x});
  }

  lemma SameRefs(g: Heap, g': Heap, path: Paths, root: nat, p: nat, c: Byte)
    requires Inv(g, path, root) && g'.Keys == g.Keys
    requires forall u: nat, d: Byte, y: nat :: Refers(g', u, d, y) <==> Refers(g, u, d, y)
    ensures NewRefsOk(g, g', p, c, {})
  {
    hide Child, Ok, NodeOk;
    forall u: nat, d: Byte, y: nat | Refers(g, u, d, y) ensures u in g { }
    hide Refers;
  }

  lemma RootKindOf(h: Heap, path: Paths, root: nat)
    requires Inv(h, path, root)
    ensures root in h && h[root].kids.kind.N256?
  {
    hide Child, Ok;
  }

  /** The repair of one node, on the tree and on what it stands for. */
  lemma TornMend(h: Heap, g: Heap, path: Paths, x: nat, pre: Prefix, level: nat)
    requires Torn(h, g, path) && x in h && x in path && level <= |path[x]| && PrefixOk(pre, path[x][level..])
    ensures x in g && Torn(Shortened(h, Ptr(x), pre), Shortened(g, Ptr(x), pre), path)
  {
    TornAt(h, g, path, x);
    WholeIsLoose(pre, path[x], level);
    hide Loose, PrefixOk;
    var h', g' := Shortened(h, Ptr(x), pre), Shortened(g, Ptr(x), pre);
    forall y: nat | y in h ensures NodeTorn(h', g', path, y) { TornAt(h, g, path, y); }
  }

  /** Every prefix fits the level of its node. */
  ghost predicate Fits(h: Heap, path: Paths) {
    forall p: nat, c: Byte, x: nat :: Refers(h, p, c, x) && p in path && x in h && x in path ==>
      h[x].prefix.count + |path[p]| + 1 == |path[x]|
  }

  /** Once every prefix fits again, the tree is in order. */
  lemma Restored(h: Heap, g: Heap, path: Paths, root: nat, m: map<Key, nat>)
    requires Torn(h, g, path) && Means(g, path, root, m) && Fits(h, path)
    ensures Means(h, path, root, m)
  {
    hide Child, Ok, Find, Torn, Inv;
    TornShape(h, g, path);
    RestoredInv(h, g, path, root);
    forall k: Key ensures Find(h, path, root, k) == MapAt(m, k) { FindShape(h, g, path, root, k); }
  }

  lemma RestoredInv(h: Heap, g: Heap, path: Paths, root: nat)
    requires Torn(h, g, path) && Inv(g, path, root) && Fits(h, path)
    ensures Inv(h, path, root)
  {
    hide Child, Ok, NodeOk, Torn, OneParent;
    assert path.Keys == h.Keys by { assert Torn(h, g, path); TornKeys(h, g, path); }
    TornAt(h, g, path, root);
    forall x: nat, b: Byte, y: nat ensures Refers(h, x, b, y) <==> Refers(g, x, b, y) {
      if x in h { TornAt(h, g, path, x); }
    }
    assert OneParent(h) by { SameParents(h, g); }
    forall x: nat | x in h ensures NodeOk(h, path, x) && (x != root ==> Sized(h[x].kids)) {
      TornAt(h, g, path, x);
      RestoredNode(h, g, path, root, x);
    }
  }

  lemma TornKeys(h: Heap, g: Heap, path: Paths)
    requires Torn(h, g, path)
    ensures h.Keys == g.Keys
  {
  }

  lemma SameParents(h: Heap, g: Heap)
    requires OneParent(g) && forall x: nat, b: Byte, y: nat :: Refers(h, x, b, y) <==> Refers(g, x, b, y)
    ensures OneParent(h)
  {
    hide Refers;
  }

  lemma RestoredNode(h: Heap, g: Heap, path: Paths, root: nat, x: nat)
    requires Torn(h, g, path) && Inv(g, path, root) && Fits(h, path) && NodeTorn(h, g, path, x)
    ensures NodeOk(h, path, x)
  {
    hide Child, Ok, Torn, Inv;
    KidFacts(g, path, root, x, 0);
    forall b: Byte | Child(h[x].kids, b).Some? ensures KidOk(h, path, path[x], b, Child(h[x].kids, b).value) {
      KidFacts(g, path, root, x, b);
      var c := Child(h[x].kids, b).value;
      if c.Ptr? {
        TornAt(h, g, path, c.id);
        assert Refers(h, x, b, c.id);
      }
    }
  }

  // ---- what one persisted store can do to a tree ----

  /** Some child pointer leads to x. */
  ghost predicate Led(h: Heap, x: nat) { exists w: nat, b: Byte :: Refers(h, w, b, x) }

  /** Byte c of node p is rebound to o; nodes may come before anything leads to them and go when nothing does. */
  ghost predicate PointerStore(h: Heap, h': Heap, p: nat, c: Byte, o: Option<Ref>) {
    && p in h && p in h' && h'[p] == h[p].(kids := h'[p].kids) && Binds(h[p].kids, h'[p].kids, c, o)
    && (forall x: nat :: x in h && x in h' && x != p ==> h'[x] == h[x])
    && (forall x: nat :: x in h && x !in h' ==> !Led(h', x))
    && (forall x: nat :: x in h' && x !in h ==> !Led(h, x))
  }

  predicate PrefixStore(h: Heap, h': Heap, x: nat) {
    x in h && x in h' && h' == h[x := h[x].(prefix := h'[x].prefix)]
  }

  /** One child pointer or one prefix has changed. */
  ghost predicate OneStore(h: Heap, h': Heap) {
    || (exists p: nat, c: Byte, o :: PointerStore(h, h', p, c, o))
    || exists x: nat :: PrefixStore(h, h', x)
  }

  /** The log ends with the present nodes, and from each state to the next it takes one store. */
  ghost predicate Trace(log: seq<Heap>, h: Heap) {
    log != [] && log[|log| - 1] == h && forall i: nat :: i + 1 < |log| ==> OneStore(log[i], log[i + 1])
  }

  lemma TraceOn(log: seq<Heap>, h: Heap, h': Heap)
    requires Trace(log, h) && OneStore(h, h')
    ensures Trace(log + [h'], h')
  {
    hide OneStore;
    var on := log + [h'];
    forall i: nat | i + 1 < |on| ensures OneStore(on[i], on[i + 1]) {
      if i + 1 < |log| { assert OneStore(log[i], log[i + 1]); }
    }
  }

  lemma OnePointer(h: Heap, h': Heap, p: nat, c: Byte, o: Option<Ref>)
    requires PointerStore(h, h', p, c, o)
    ensures OneStore(h, h')
  {
  }

  lemma OnePrefix(h: Heap, h': Heap, x: nat)
    requires PrefixStore(h, h', x)
    ensures OneStore(h, h')
  {
  }

  /** Child pointers lead to nodes that are there. */
  lemma LedIn(h: Heap, g: Heap, path: Paths, root: nat, x: nat)
    requires Torn(h, g, path) && Inv(g, path, root) && x !in h
    ensures !Led(h, x)
  {
    hide Child, Ok, Inv, Torn;
    forall w: nat, b: Byte ensures !Refers(h, w, b, x) {
      if Refers(h, w, b, x) {
        TornAt(h, g, path, w);
        KidFacts(g, path, root, w, b);
        TornAt(h, g, path, x);
      }
    }
  }

  /** A child pointer of p changes; what else differs is new or gone. */
  lemma StoresPointer(h: Heap, g: Heap, path: Paths, h': Heap, g': Heap, path': Paths, root: nat, p: nat, c: Byte,
        o: Option<Ref>)
    requires Torn(h, g, path) && Inv(g, path, root) && Torn(h', g', path') && Inv(g', path', root)
    requires p in h && p in h' && h'[p] == h[p].(kids := h'[p].kids) && Binds(h[p].kids, h'[p].kids, c, o)
    requires forall x: nat :: x in h && x in h' && x != p ==> h'[x] == h[x]
    ensures OneStore(h, h')
  {
    hide Binds, Inv, Torn, Led;
    forall x: nat | x in h && x !in h' ensures !Led(h', x) { LedIn(h', g', path', root, x); }
    forall x: nat | x in h' && x !in h ensures !Led(h, x) { LedIn(h, g, path, root, x); }
    assert PointerStore(h, h', p, c, o);
    OnePointer(h, h', p, c, o);
  }

  // ---- lookup ----

  /**
   * On its way to k a lookup takes a wrong turn: a prefix that is too long by more than the bytes it
   * stores makes it skip too many bytes of k, and the byte it then looks at is not the one that counts.
   */
  ghost predicate Strays(h: Heap, path: Paths, x: nat, k: Key, level: nat)
    decreases if PathLen(path, x) <= |k| then |k| - PathLen(path, x) else 0
  {
    && x in h && x in path && path[x] < k && Ok(h[x].kids)
    && var l := Landing(level, |path[x]|, h[x].prefix.count);
    || l >= |k| || k[l] != k[|path[x]|]
    || match Child(h[x].kids, k[|path[x]|])
       case Some(Ptr(y)) => PathLen(path, y) > |path[x]| && Strays(h, path, y, k, l + 1)
       case _ => false
  }

  /** No node on the way to k has bytes skipped unseen; base is where the node's parent ends. */
  ghost predicate Plain(h: Heap, path: Paths, x: nat, k: Key, base: nat)
    decreases if PathLen(path, x) <= |k| then |k| - PathLen(path, x) else 0
  {
    x in h && x in path && path[x] < k && Ok(h[x].kids) ==>
      && !Unseen(base, |path[x]|, h[x].prefix.count)
      && match Child(h[x].kids, k[|path[x]|])
         case Some(Ptr(y)) => PathLen(path, y) > |path[x]| ==> Plain(h, path, y, k, |path[x]| + 1)
         case _ => true
  }

  /** lookup takes the leaf it comes to for k unseen, and the leaf is for another key. */
  ghost predicate TornMisread(h: Heap, path: Paths, x: nat, k: Key, base: nat, opt: bool)
    decreases if PathLen(path, x) <= |k| then |k| - PathLen(path, x) else 0
  {
    && x in h && x in path && path[x] < k && Ok(h[x].kids)
    && var o := opt || Unseen(base, |path[x]|, h[x].prefix.count);
    match Child(h[x].kids, k[|path[x]|])
    case None => false
    case Some(Leaf(q, _)) => !o && |path[x]| + 1 == |k| && q != k
    case Some(Ptr(y)) => PathLen(path, y) > |path[x]| && TornMisread(h, path, y, k, |path[x]| + 1, o)
  }

  lemma {:induction false} CheckedNever(h: Heap, path: Paths, x: nat, k: Key, base: nat)
    ensures !TornMisread(h, path, x, k, base, true)
    decreases if PathLen(path, x) <= |k| then |k| - PathLen(path, x) else 0
  {
    hide Child, Ok;
    if x in h && x in path && path[x] < k && Ok(h[x].kids) && Child(h[x].kids, k[|path[x]|]).Some? {
      var c := Child(h[x].kids, k[|path[x]|]).value;
      if c.Ptr? && PathLen(path, c.id) > |path[x]| { CheckedNever(h, path, c.id, k, |path[x]| + 1); }
    }
  }

  /** A torn tree misreads no more than the tree it stands for, and that only where nothing on the way is skipped. */
  lemma {:induction false} TornMisreadIff(h: Heap, g: Heap, path: Paths, root: nat, x: nat, k: Key, base: nat)
    requires Torn(h, g, path) && Inv(g, path, root) && x in g && x in path && base <= |path[x]|
    requires PrefixOk(g[x].prefix, path[x][base..])
    ensures TornMisread(h, path, x, k, base, false) <==> Misread(g, path, x, k, false) && Plain(h, path, x, k, base)
    decreases if PathLen(path, x) <= |k| then |k| - PathLen(path, x) else 0
  {
    hide Child, Ok, Inv, Torn;
    TornAt(h, g, path, x);
    KidFacts(g, path, root, x, 0);
    if path[x] < k {
      var b := k[|path[x]|];
      KidFacts(g, path, root, x, b);
      if Child(g[x].kids, b).Some? && Child(g[x].kids, b).value.Ptr? {
        var y := Child(g[x].kids, b).value.id;
        if Unseen(base, |path[x]|, h[x].prefix.count) {
          CheckedNever(h, path, y, k, |path[x]| + 1);
        } else {
          TornMisreadIff(h, g, path, root, y, k, |path[x]| + 1);
        }
      }
    }
  }

  /** The answer r is wrong exactly for stored keys that are lost on the way and for keys that are misread. */
  ghost predicate Answers(h: Heap, g: Heap, path: Paths, root: nat, k: Key, r: Option<nat>) {
    var found := Find(g, path, root, k);
    r != found <==> (found.Some? && Strays(h, path, root, k, 0)) || TornMisread(h, path, root, k, 0, false)
  }

  /**
   * A descent for k has consumed `level` bytes and come to x, whose parent ends before base.  If the
   * bytes up to there are those of k it is on k's way; otherwise it will check the leaf it comes to.
   */
  ghost predicate OnTrack(h: Heap, g: Heap, path: Paths, root: nat, k: Key, x: nat, level: nat, base: nat, opt: bool) {
    && x in path && base <= level <= |k| && base <= |path[x]| && (level > base ==> opt)
    && if path[x][..base] == k[..base] then
         && Find(g, path, root, k) == Find(g, path, x, k)
         && (Strays(h, path, root, k, 0) <==> Strays(h, path, x, k, level))
         && (TornMisread(h, path, root, k, 0, false) <==> TornMisread(h, path, x, k, base, opt))
       else Lost(h, g, path, root, k, opt)
  }

  /** Whatever leaf is reached now is for another key. */
  ghost predicate Lost(h: Heap, g: Heap, path: Paths, root: nat, k: Key, opt: bool) {
    && opt && (Find(g, path, root, k).Some? ==> Strays(h, path, root, k, 0))
    && !TornMisread(h, path, root, k, 0, false)
  }

  lemma TrackStarts(h: Heap, g: Heap, path: Paths, root: nat, k: Key)
    requires root in path
    ensures OnTrack(h, g, path, root, k, root, 0, 0, false)
  {
    hide Find, Strays, TornMisread;
  }

  /** A node whose path is not k's. */
  lemma NotBelow(h: Heap, g: Heap, path: Paths, x: nat, k: Key, level: nat, base: nat, opt: bool)
    requires x in path && !(path[x] < k)
    ensures Find(g, path, x, k).None? && !Strays(h, path, x, k, level) && !TornMisread(h, path, x, k, base, opt)
  {
  }

  lemma TrackEnds(h: Heap, g: Heap, path: Paths, root: nat, k: Key, x: nat, level: nat, base: nat, opt: bool)
    requires NodeTorn(h, g, path, x) && OnTrack(h, g, path, root, k, x, level, base, opt)
    requires |k| <= |path[x]| || !Agrees(h[x].prefix, path[x], k, level)
    ensures Answers(h, g, path, root, k, None)
  {
    hide Find, Strays, TornMisread;
    NotBelow(h, g, path, x, k, level, base, opt);
  }

  /** What is not seen may differ; then bytes were skipped. */
  lemma SeenOrSkipped(p: Prefix, w: Key, k: Key, level: nat, base: nat, opt: bool)
    requires base <= level && base <= |w| < |k| && (level > base ==> opt) && Loose(p, w) && Agrees(p, w, k, level)
    requires w[..base] == k[..base] && !(opt || Unseen(level, |w|, p.count))
    ensures w < k
  {
    assert forall j :: 0 <= j < base ==> w[j] == w[..base][j] == k[..base][j] == k[j];
  }

  /** One node on the way. */
  lemma StepOn(h: Heap, g: Heap, path: Paths, root: nat, x: nat, k: Key, level: nat, base: nat, opt: bool)
    requires NodeTorn(h, g, path, x) && Inv(g, path, root) && path[x] < k && base <= level && base <= |path[x]|
      && (level > base ==> opt)
    ensures Ok(h[x].kids)
    ensures
      var L := |path[x]|;
      var l, o := Landing(level, L, h[x].prefix.count), opt || Unseen(level, L, h[x].prefix.count);
      var c := Child(h[x].kids, k[L]);
      && Find(g, path, x, k) == FindAt(g, path, c, k)
      && (l >= |k| || k[l] != k[L] ==> Strays(h, path, x, k, level) && o && !TornMisread(h, path, x, k, base, opt))
      && (l < |k| && k[l] == k[L] ==>
        && (Strays(h, path, x, k, level) <==> c.Some? && c.value.Ptr? && Strays(h, path, c.value.id, k, l + 1))
        && (TornMisread(h, path, x, k, base, opt) <==> TornMisreadAt(h, path, c, k, L + 1, o)))
  {
    hide Child, Ok;
    FindStep(g, path, root, x, k);
    KidFacts(g, path, root, x, k[|path[x]|]);
    hide Inv, Find;
    var c := Child(h[x].kids, k[|path[x]|]);
    if c.Some? && c.value.Ptr? { CheckedNever(h, path, c.value.id, k, |path[x]| + 1); }
  }

  /** The same at a child pointer for the byte before `base`. */
  ghost predicate TornMisreadAt(h: Heap, path: Paths, c: Option<Ref>, k: Key, base: nat, opt: bool) {
    match c
    case None => false
    case Some(Leaf(q, _)) => !opt && base == |k| && q != k
    case Some(Ptr(y)) => TornMisread(h, path, y, k, base, opt)
  }

  /** What lookup makes of the child pointer it comes to. */
  ghost predicate Goes(h: Heap, g: Heap, path: Paths, root: nat, k: Key, L: nat, l: nat, opt: bool, c: Option<Ref>) {
    match c
    case None => Answers(h, g, path, root, k, None)
    case Some(Leaf(q, v)) =>
      Answers(h, g, path, root, k, if (l < |k| - 1 || opt) && q != k then None else Some(v))
    case Some(Ptr(y)) => OnTrack(h, g, path, root, k, y, l + 1, L + 1, opt)
  }

  lemma NotOn(w: Key, k: Key, b: Byte)
    requires |w| < |k| && (!(w < k) || b != k[|w|])
    ensures !(w + [b] <= k)
  {
    assert (w + [b])[|w|] == b && (w + [b])[..|w|] == w;
  }

  /** Off the way, leaves are for other keys. */
  lemma LostGoes(h: Heap, g: Heap, path: Paths, root: nat, k: Key, x: nat, l: nat, opt: bool)
    requires NodeTorn(h, g, path, x) && Inv(g, path, root) && Lost(h, g, path, root, k, opt) && |path[x]| <= l < |k|
    requires !(path[x] < k) || k[l] != k[|path[x]|]
    ensures Ok(h[x].kids) && Goes(h, g, path, root, k, |path[x]|, l, opt, Child(h[x].kids, k[l]))
  {
    hide Child, Ok, Find, Strays, TornMisread, Loose;
    KidFacts(g, path, root, x, k[l]);
    hide Inv;
    if Child(h[x].kids, k[l]).Some? {
      var w := path[x] + [k[l]];
      NotOn(path[x], k, k[l]);
      if Child(h[x].kids, k[l]).value.Ptr? {
        var y := Child(h[x].kids, k[l]).value.id;
        assert path[y][..|w|] == w;
      }
    }
  }

  lemma TrackStep(h: Heap, g: Heap, path: Paths, root: nat, k: Key, x: nat, level: nat, base: nat, opt: bool)
    requires NodeTorn(h, g, path, x) && Inv(g, path, root) && OnTrack(h, g, path, root, k, x, level, base, opt)
    requires |path[x]| < |k| && Agrees(h[x].prefix, path[x], k, level)
    ensures Ok(h[x].kids)
    ensures
      var L := |path[x]|;
      var l, o := Landing(level, L, h[x].prefix.count), opt || Unseen(level, L, h[x].prefix.count);
      && (l >= |k| ==> Answers(h, g, path, root, k, None))
      && (l < |k| ==> Goes(h, g, path, root, k, L, l, o, Child(h[x].kids, k[l])))
  {
    hide Child, Ok, Find, Strays, TornMisread, Inv, Agrees;
    var L := |path[x]|;
    var l, o := Landing(level, L, h[x].prefix.count), opt || Unseen(level, L, h[x].prefix.count);
    KidFacts(g, path, root, x, 0);
    if path[x] < k && path[x][..base] == k[..base] {
      StepOn(h, g, path, root, x, k, level, base, opt);
      if l < |k| && k[l] == k[L] {
        OnGoes(h, g, path, root, k, x, level, base, opt);
      } else if l < |k| {
        LostGoes(h, g, path, root, k, x, l, o);
      }
    } else {
      if path[x][..base] == k[..base] {
        NotBelow(h, g, path, x, k, level, base, opt);
        if !o { SeenOrSkipped(h[x].prefix, path[x], k, level, base, opt); }
      }
      assert Lost(h, g, path, root, k, o);
      if l < |k| { LostGoes(h, g, path, root, k, x, l, o); }
    }
  }

  lemma OnGoes(h: Heap, g: Heap, path: Paths, root: nat, k: Key, x: nat, level: nat, base: nat, opt: bool)
    requires NodeTorn(h, g, path, x) && Inv(g, path, root) && OnTrack(h, g, path, root, k, x, level, base, opt)
    requires path[x] < k && path[x][..base] == k[..base]
    requires var l := Landing(level, |path[x]|, h[x].prefix.count); l < |k| && k[l] == k[|path[x]|]
    ensures Ok(h[x].kids)
    ensures
      var L := |path[x]|;
      var l, o := Landing(level, L, h[x].prefix.count), opt || Unseen(level, L, h[x].prefix.count);
      Goes(h, g, path, root, k, L, l, o, Child(h[x].kids, k[l]))
  {
    hide Child, Ok, Find, Strays, TornMisread;
    var L := |path[x]|;
    var c := Child(h[x].kids, k[L]);
    StepOn(h, g, path, root, x, k, level, base, opt);
    KidFacts(g, path, root, x, k[L]);
    hide Inv;
    if c.Some? && c.value.Ptr? {
      var w := path[x] + [k[L]];
      assert k[..L + 1] == w && path[c.value.id][..L + 1] == w;
    }
  }

  // ---- when a lookup strays ----

  /** The prefix of a node whose parent ends before base is too long by no more than the bytes it stores. */
  predicate Within(h: Heap, path: Paths, x: nat, base: nat) {
    x in h && x in path ==> h[x].prefix.count + base <= |path[x]| + MAX_STORED
  }

  ghost predicate AllWithin(h: Heap, path: Paths) {
    forall p: nat, c: Byte, x: nat :: Refers(h, p, c, x) && p in path ==> Within(h, path, x, |path[p]| + 1)
  }

  lemma {:induction false} WithinNeverStrays(h: Heap, g: Heap, path: Paths, root: nat, x: nat, k: Key, base: nat)
    requires Torn(h, g, path) && Inv(g, path, root) && AllWithin(h, path) && x in h && x in path && base <= |path[x]|
      && Within(h, path, x, base)
    ensures !Strays(h, path, x, k, base)
    decreases if PathLen(path, x) <= |k| then |k| - PathLen(path, x) else 0
  {
    hide Child, Ok, Inv, Torn;
    TornAt(h, g, path, x);
    if path[x] < k {
      var b := k[|path[x]|];
      KidFacts(g, path, root, x, b);
      if Child(h[x].kids, b).Some? && Child(h[x].kids, b).value.Ptr? {
        var y := Child(h[x].kids, b).value.id;
        assert Refers(h, x, b, y);
        TornAt(h, g, path, y);
        WithinNeverStrays(h, g, path, root, y, k, |path[x]| + 1);
      }
    }
  }

  /** In a tree that is torn nowhere by more than the bytes a prefix stores, lookup loses no key. */
  lemma WithinLosesNone(h: Heap, g: Heap, path: Paths, root: nat, k: Key)
    requires Torn(h, g, path) && Inv(g, path, root) && AllWithin(h, path)
    ensures !Strays(h, path, root, k, 0)
  {
    StartAt(g, path, root);
    hide Inv, AllWithin, Torn;
    TornAt(h, g, path, root);
    WithinNeverStrays(h, g, path, root, root, k, 0);
  }

  /** A tree in order is torn nowhere. */
  lemma WholeIsWithin(g: Heap, path: Paths, root: nat)
    requires Inv(g, path, root)
    ensures AllWithin(g, path)
  {
    hide Inv, Refers;
    forall p: nat, c: Byte, x: nat | Refers(g, p, c, x) && p in path ensures Within(g, path, x, |path[p]| + 1) {
      Apart(g, path, root, p, c, x);
    }
  }

  /** With one node torn, as a crash in a split leaves it, it is that node that decides. */
  lemma OneTornWithin(h: Heap, g: Heap, path: Paths, root: nat, p: nat, c: Byte, x: nat)
    requires Torn(h, g, path) && Inv(g, path, root) && Refers(g, p, c, x) && p in path && x in h
    requires forall y: nat :: y in h && y != x ==> y in g && h[y] == g[y]
    ensures AllWithin(h, path) <==> Within(h, path, x, |path[p]| + 1)
  {
    hide Inv, Loose;
    TornAt(h, g, path, x);
    forall q: nat, d: Byte, y: nat ensures Refers(h, q, d, y) <==> Refers(g, q, d, y) {
      if q in h { TornAt(h, g, path, q); }
    }
    SoleParent(g, path, root, p, c, x);
    hide Refers;
    forall q: nat, d: Byte, y: nat | Refers(h, q, d, y) && q in path && y != x
      ensures Within(h, path, y, |path[q]| + 1)
    {
      Apart(g, path, root, q, d, y);
    }
  }

  /** In a tree in order what is misread is read with nothing skipped. */
  lemma {:induction false} WholeMisread(g: Heap, path: Paths, root: nat, x: nat, k: Key, base: nat)
    requires Inv(g, path, root) && x in g && x in path && base <= |path[x]| && PrefixOk(g[x].prefix, path[x][base..])
    requires Misread(g, path, x, k, false)
    ensures Plain(g, path, x, k, base)
    decreases if PathLen(path, x) <= |k| then |k| - PathLen(path, x) else 0
  {
    hide Child, Ok, Inv;
    var b := k[|path[x]|];
    KidFacts(g, path, root, x, b);
    if Child(g[x].kids, b).Some? && Child(g[x].kids, b).value.Ptr? {
      var y := Child(g[x].kids, b).value.id;
      if g[x].prefix.count > MAX_STORED { SeenNever(g, path, y, k); }
      WholeMisread(g, path, root, y, k, |path[x]| + 1);
    }
  }

  /** What lookup answers, in terms of what the tree stands for. */
  lemma AnswersMean(h: Heap, g: Heap, path: Paths, root: nat, m: map<Key, nat>, top: nat, k: Key, r: Option<nat>)
    requires Torn(h, g, path) && Means(g, path, root, m) && Bounded(g, top) && Answers(h, g, path, root, k, r)
    ensures r != MapAt(m, k) <==>
      (k in m && Strays(h, path, root, k, 0)) || (Deceives(m, k) && Plain(h, path, root, k, 0))
    ensures h == g ==> (r != MapAt(m, k) <==> Deceives(m, k))
  {
    hide Find, Strays, TornMisread, Misread, Plain, Deceives, Inv, Bounded, Torn;
    StartAt(g, path, root);
    assert Find(g, path, root, k) == MapAt(m, k);
    TornMisreadIff(h, g, path, root, root, k, 0);
    MisreadIff(g, path, root, m, top, k);
    if h == g {
      WholeIsWithin(g, path, root);
      WithinLosesNone(g, g, path, root, k);
      if Misread(g, path, root, k, false) { WholeMisread(g, path, root, root, k, 0); }
    }
  }
}
