/** The stores of insert and remove, each with what it does to the map. */
module ArtSteps {
  import opened Common
  import opened ArtNode
  import opened ArtTree
  import opened ArtEdits

  function SetKids(h: Heap, x: nat, kids: Layout): Heap
    requires x in h
  {
    h[x := h[x].(kids := kids)]
  }

  /** After the edit, what extends w is found at o; everything else is as before. */
  ghost predicate Rebinds(h: Heap, path: Paths, h': Heap, path': Paths, root: nat, w: Key, o: Option<Ref>) {
    && Inv(h', path', root)
    && forall q: Key :: Find(h', path', root, q) == if w <= q then FindAt(h', path', o, q) else Find(h, path, root, q)
  }

  // ---- one child of a node, in place ----

  lemma SetEdit(h: Heap, path: Paths, root: nat, x: nat, b: Byte, o: Option<Ref>, kids: Layout)
    requires Inv(h, path, root) && x in h && Binds(h[x].kids, kids, b, o)
      && (if x == root then kids.kind.N256? else Sized(kids))
    requires o.Some? ==> o.value.Leaf? && x in path && path[x] + [b] <= o.value.key
    ensures Edit(h, path, SetKids(h, x, kids), path, x, b, o, {}) && Inv(SetKids(h, x, kids), path, root)
  {
    hide Child, Ok, OneParent, NodeOk;
    var h' := SetKids(h, x, kids);
    EditKeeps(h, path, h', path, root, x, b, o, {}, {});
  }

  lemma SetStep(h: Heap, path: Paths, root: nat, x: nat, b: Byte, o: Option<Ref>, kids: Layout)
    requires Inv(h, path, root) && Leads(h, path, root, x) && Binds(h[x].kids, kids, b, o)
      && (if x == root then kids.kind.N256? else Sized(kids))
    requires o.Some? ==> o.value.Leaf? && path[x] + [b] <= o.value.key
    ensures Rebinds(h, path, SetKids(h, x, kids), path, root, path[x] + [b], o)
  {
    hide Child, Ok, OneParent, NodeOk, Find, Inv, Edit;
    var h' := SetKids(h, x, kids);
    SetEdit(h, path, root, x, b, o, kids);
    forall q: Key
      ensures Find(h', path, root, q) == if path[x] + [b] <= q then FindAt(h', path, o, q) else Find(h, path, root, q)
    {
      EditFinds(h, path, h', path, root, x, b, o, {}, q);
    }
  }

  // ---- a node replaced by a copy of another size ----

  function Swapped(h: Heap, p: nat, kidsP: Layout, x: nat, n: nat, kids: Layout): Heap
    requires p in h && x in h
  {
    (SetKids(h, p, kidsP) - {x})[n := h[x].(kids := kids)]
  }

  function SwappedPath(path: Paths, x: nat, n: nat): Paths
    requires x in path
  {
    (path - {x})[n := path[x]]
  }

  /** Byte c of p leads to x, whose copy with byte b rebound to o is n. */
  ghost predicate Swaps(h: Heap, path: Paths, root: nat, p: nat, c: Byte, kidsP: Layout, x: nat, n: nat, kids: Layout,
        b: Byte, o: Option<Ref>) {
    && Inv(h, path, root) && Refers(h, p, c, x) && x in h && n !in h && p in path && x in path
    && Binds(h[p].kids, kidsP, c, Some(Ptr(n))) && (if p == root then kidsP.kind.N256? else Sized(kidsP))
    && Binds(h[x].kids, kids, b, o) && Sized(kids) && (o.Some? ==> o.value.Leaf? && path[x] + [b] <= o.value.key)
  }

  /** A node is apart from its parent, its children and the root. */
  lemma Apart(h: Heap, path: Paths, root: nat, x: nat, b: Byte, y: nat)
    requires Inv(h, path, root) && Refers(h, x, b, y)
    ensures y in h && y in path && x in path && path[x] + [b] <= path[y] && |path[y]| > |path[x]| && y != x && y != root
    ensures PrefixOk(h[y].prefix, path[y][|path[x]| + 1..])
  {
    hide Child, Ok, OneParent;
    KidFacts(h, path, root, x, b);
  }

  lemma SwapEdit(h: Heap, path: Paths, root: nat, p: nat, c: Byte, kidsP: Layout, x: nat, n: nat, kids: Layout,
        b: Byte, o: Option<Ref>)
    requires Swaps(h, path, root, p, c, kidsP, x, n, kids, b, o)
    ensures Edit(h, path, Swapped(h, p, kidsP, x, n, kids), SwappedPath(path, x, n), p, c, Some(Ptr(n)), {x})
  {
    hide Child, Ok, Inv, PrefixOk, Refers;
    Domains(h, path, root);
    Apart(h, path, root, p, c, x);
    SoleParent(h, path, root, p, c, x);
    assert OnlyFrom(h, p, c, {x}, {x});
    hide OnlyFrom, Binds;
  }

  lemma SwapNode(h: Heap, path: Paths, root: nat, p: nat, c: Byte, kidsP: Layout, x: nat, n: nat, kids: Layout,
        b: Byte, o: Option<Ref>)
    requires Swaps(h, path, root, p, c, kidsP, x, n, kids, b, o)
    ensures NodeOk(Swapped(h, p, kidsP, x, n, kids), SwappedPath(path, x, n), n)
  {
    hide Child, Ok, OneParent;
    var h', path' := Swapped(h, p, kidsP, x, n, kids), SwappedPath(path, x, n);
    assert NodeOk(h, path, x);
    forall d: Byte | Child(kids, d).Some? ensures KidOk(h', path', path[x], d, Child(kids, d).value) {
      if d != b && Child(kids, d).value.Ptr? {
        SwapBelow(h, path, root, p, c, kidsP, x, n, kids, b, o, d, Child(kids, d).value.id);
      }
      KidFacts(h, path, root, x, d);
    }
  }

  /** A child of the copied node stays as it is. */
  lemma SwapBelow(h: Heap, path: Paths, root: nat, p: nat, c: Byte, kidsP: Layout, x: nat, n: nat, kids: Layout,
        b: Byte, o: Option<Ref>, d: Byte, y: nat)
    requires Swaps(h, path, root, p, c, kidsP, x, n, kids, b, o) && d != b && Child(kids, d) == Some(Ptr(y))
    ensures Refers(h, x, d, y) && y in h && y != x && y != p && y != n
    ensures y in Swapped(h, p, kidsP, x, n, kids) && Swapped(h, p, kidsP, x, n, kids)[y] == h[y]
      && y in SwappedPath(path, x, n) && SwappedPath(path, x, n)[y] == path[y]
  {
    hide Child, Ok, OneParent, NodeOk;
    assert Refers(h, x, d, y);
    Apart(h, path, root, x, d, y);
    Apart(h, path, root, p, c, x);
  }

  lemma SwapRefs(h: Heap, path: Paths, root: nat, p: nat, c: Byte, kidsP: Layout, x: nat, n: nat, kids: Layout,
        b: Byte, o: Option<Ref>)
    requires Swaps(h, path, root, p, c, kidsP, x, n, kids, b, o)
    ensures NewRefsOk(h, Swapped(h, p, kidsP, x, n, kids), p, c, {x})
  {
    hide Child, Ok, NodeOk;
    var h' := Swapped(h, p, kidsP, x, n, kids);
    Apart(h, path, root, p, c, x);
    forall w: nat, d: Byte, y: nat | NewSlot(h, p, c, w, d) && Refers(h', w, d, y)
      ensures (w == p && d == c && y == n) || (w == n && d != b && Refers(h, x, d, y) && y in h)
    {
      if w != p { SwapBelow(h, path, root, p, c, kidsP, x, n, kids, b, o, d, y); }
    }
    forall w: nat, d: Byte, y: nat | Refers(h, w, d, y) ensures y in h { Apart(h, path, root, w, d, y); }
  }

  lemma SwapInv(h: Heap, path: Paths, root: nat, p: nat, c: Byte, kidsP: Layout, x: nat, n: nat, kids: Layout, b: Byte,
        o: Option<Ref>)
    requires Swaps(h, path, root, p, c, kidsP, x, n, kids, b, o)
    ensures Edit(h, path, Swapped(h, p, kidsP, x, n, kids), SwappedPath(path, x, n), p, c, Some(Ptr(n)), {x})
    ensures Inv(Swapped(h, p, kidsP, x, n, kids), SwappedPath(path, x, n), root)
  {
    SwapEdit(h, path, root, p, c, kidsP, x, n, kids, b, o);
    SwapNode(h, path, root, p, c, kidsP, x, n, kids, b, o);
    SwapRefs(h, path, root, p, c, kidsP, x, n, kids, b, o);
    Apart(h, path, root, p, c, x);
    hide Child, Ok, NodeOk, OneParent, Inv, NewRefsOk, Edit;
    EditKeeps(h, path, Swapped(h, p, kidsP, x, n, kids), SwappedPath(path, x, n), root, p, c, Some(Ptr(n)), {x}, {});
  }

  lemma SwapFinds(h: Heap, path: Paths, root: nat, p: nat, c: Byte, kidsP: Layout, x: nat, n: nat, kids: Layout,
        b: Byte, o: Option<Ref>, q: Key)
    requires Swaps(h, path, root, p, c, kidsP, x, n, kids, b, o)
    ensures var h', path' := Swapped(h, p, kidsP, x, n, kids), SwappedPath(path, x, n);
      Find(h', path', n, q) == if path[x] + [b] <= q then FindAt(h', path', o, q) else Find(h, path, x, q)
  {
    hide Child, Ok, NodeOk, OneParent;
    var h', path' := Swapped(h, p, kidsP, x, n, kids), SwappedPath(path, x, n);
    if path[x] < q {
      var d := q[|path[x]|];
      SwapInv(h, path, root, p, c, kidsP, x, n, kids, b, o);
      hide Inv, Find;
      FindStep(h', path', root, n, q);
      FindStep(h, path, root, x, q);
      assert path[x] + [d] <= q;
      if d != b && Child(kids, d).Some? && Child(kids, d).value.Ptr? {
        var y := Child(kids, d).value.id;
        SwapBelow(h, path, root, p, c, kidsP, x, n, kids, b, o, d, y);
        Apart(h, path, root, x, d, y);
        Apart(h, path, root, p, c, x);
        FindElsewhere(h, path, h', path', root, p, c, Some(Ptr(n)), {x}, y, q);
      }
    }
  }

  lemma SwapStep(h: Heap, path: Paths, root: nat, p: nat, c: Byte, kidsP: Layout, x: nat, n: nat, kids: Layout,
        b: Byte, o: Option<Ref>)
    requires Swaps(h, path, root, p, c, kidsP, x, n, kids, b, o) && Leads(h, path, root, p)
    ensures Rebinds(h, path, Swapped(h, p, kidsP, x, n, kids), SwappedPath(path, x, n), root, path[x] + [b], o)
  {
    hide Child, Ok, OneParent, NodeOk, Find, Inv, Edit;
    var h', path' := Swapped(h, p, kidsP, x, n, kids), SwappedPath(path, x, n);
    SwapInv(h, path, root, p, c, kidsP, x, n, kids, b, o);
    Apart(h, path, root, p, c, x);
    forall q: Key
      ensures Find(h', path', root, q) == if path[x] + [b] <= q then FindAt(h', path', o, q) else Find(h, path, root, q)
    {
      EditFinds(h, path, h', path', root, p, c, Some(Ptr(n)), {x}, q);
      if path[p] + [c] <= q {
        FoundBefore(h, path, root, p, c, q);
        SwapFinds(h, path, root, p, c, kidsP, x, n, kids, b, o, q);
      }
    }
  }

  // ---- a new node between a child pointer and what it led to ----

  /** The bytes a child pointer stands for. */
  function Goal(path: Paths, r: Ref): Key
    requires r.Ptr? ==> r.id in path
  {
    match r
    case Leaf(k, _) => k
    case Ptr(y) => path[y]
  }

  /** Node r leads to, if any, gets a new prefix. */
  function Shortened(h: Heap, r: Ref, pre: Prefix): Heap
    requires r.Ptr? ==> r.id in h
  {
    if r.Ptr? then h[r.id := h[r.id].(prefix := pre)] else h
  }

  function Forked(h: Heap, p: nat, kidsP: Layout, r: Ref, pre: Prefix, n: nat, node: Inner): Heap
    requires p in h && (r.Ptr? ==> r.id in h)
  {
    Shortened(SetKids(h, p, kidsP), r, pre)[n := node]
  }

  /** Byte c of p leads to r; the new node n, with path w, forks to r and to a leaf for k. */
  ghost predicate Forks(h: Heap, path: Paths, root: nat, p: nat, c: Byte, kidsP: Layout, r: Ref, pre: Prefix, n: nat,
        node: Inner, w: Key, k: Key, v: nat) {
    && Inv(h, path, root) && p in h && p in path && Ok(h[p].kids) && Child(h[p].kids, c) == Some(r) && n !in h
      && (r.Ptr? ==> r.id in h && r.id in path)
    && Binds(h[p].kids, kidsP, c, Some(Ptr(n))) && (if p == root then kidsP.kind.N256? else Sized(kidsP))
    && path[p] + [c] <= w && w < k && w < Goal(path, r) && k[|w|] != Goal(path, r)[|w|]
    && node.level == |w| && PrefixOk(node.prefix, w[|path[p]| + 1..]) && Ok(node.kids) && Sized(node.kids)
    && (forall d: Byte ::
      Child(node.kids, d) == if d == k[|w|] then Some(Leaf(k, v)) else if d == Goal(path, r)[|w|] then Some(r)
      else None)
    && (r.Ptr? ==> PrefixOk(pre, path[r.id][|w| + 1..]))
  }

  ghost predicate Adds(h: Heap, path: Paths, h': Heap, path': Paths, root: nat, k: Key, v: nat) {
    && Inv(h', path', root) && Find(h, path, root, k).None?
    && forall q: Key :: Find(h', path', root, q) == if q == k then Some(v) else Find(h, path, root, q)
  }

  lemma ForkEdit(h: Heap, path: Paths, root: nat, p: nat, c: Byte, kidsP: Layout, r: Ref, pre: Prefix, n: nat,
        node: Inner, w: Key, k: Key, v: nat)
    requires Forks(h, path, root, p, c, kidsP, r, pre, n, node, w, k, v)
    ensures Edit(h, path, Forked(h, p, kidsP, r, pre, n, node), path[n := w], p, c, Some(Ptr(n)), {})
  {
    hide Child, Ok, Inv, PrefixOk;
    Domains(h, path, root);
    if r.Ptr? { assert Refers(h, p, c, r.id); Apart(h, path, root, p, c, r.id); }
    assert OnlyFrom(h, p, c, {}, {});
    hide OnlyFrom, Binds, Refers;
  }

  lemma ForkRefs(h: Heap, path: Paths, root: nat, p: nat, c: Byte, kidsP: Layout, r: Ref, pre: Prefix, n: nat,
        node: Inner, w: Key, k: Key, v: nat)
    requires Forks(h, path, root, p, c, kidsP, r, pre, n, node, w, k, v)
    ensures NewRefsOk(h, Forked(h, p, kidsP, r, pre, n, node), p, c, {})
    ensures r.Ptr? ==> OnlyFrom(h, p, c, {}, {r.id})
  {
    hide Child, Ok, NodeOk;
    var h' := Forked(h, p, kidsP, r, pre, n, node);
    if r.Ptr? { assert Refers(h, p, c, r.id); Apart(h, path, root, p, c, r.id); }
    forall u: nat, d: Byte, y: nat | NewSlot(h, p, c, u, d) && Refers(h', u, d, y)
      ensures (u == p && d == c && y == n) || (u == n && d == Goal(path, r)[|w|] && r == Ptr(y))
    {
    }
    forall u: nat, d: Byte, y: nat | Refers(h, u, d, y) ensures y in h { Apart(h, path, root, u, d, y); }
  }

  lemma ForkNode(h: Heap, path: Paths, root: nat, p: nat, c: Byte, kidsP: Layout, r: Ref, pre: Prefix, n: nat,
        node: Inner, w: Key, k: Key, v: nat)
    requires Forks(h, path, root, p, c, kidsP, r, pre, n, node, w, k, v)
    ensures NodeOk(Forked(h, p, kidsP, r, pre, n, node), path[n := w], n)
  {
    hide Child, Ok, OneParent, Inv;
    var h', path' := Forked(h, p, kidsP, r, pre, n, node), path[n := w];
    forall d: Byte | Child(node.kids, d).Some? ensures KidOk(h', path', w, d, Child(node.kids, d).value) {
      if d == k[|w|] { assert w + [d] <= k; } else { assert w + [d] <= Goal(path, r); }
    }
  }

  lemma ForkInv(h: Heap, path: Paths, root: nat, p: nat, c: Byte, kidsP: Layout, r: Ref, pre: Prefix, n: nat,
        node: Inner, w: Key, k: Key, v: nat)
    requires Forks(h, path, root, p, c, kidsP, r, pre, n, node, w, k, v)
    ensures Edit(h, path, Forked(h, p, kidsP, r, pre, n, node), path[n := w], p, c, Some(Ptr(n)), {})
    ensures Inv(Forked(h, p, kidsP, r, pre, n, node), path[n := w], root)
  {
    ForkEdit(h, path, root, p, c, kidsP, r, pre, n, node, w, k, v);
    ForkRefs(h, path, root, p, c, kidsP, r, pre, n, node, w, k, v);
    ForkNode(h, path, root, p, c, kidsP, r, pre, n, node, w, k, v);
    if r.Ptr? { assert Refers(h, p, c, r.id); Apart(h, path, root, p, c, r.id); }
    hide Child, Ok, NodeOk, OneParent, Inv, NewRefsOk, Edit;
    EditKeeps(h, path, Forked(h, p, kidsP, r, pre, n, node), path[n := w], root, p, c, Some(Ptr(n)), {},
        if r.Ptr? then {r.id} else {});
  }

  /** Only keys that extend what a pointer stands for are found at it. */
  lemma FindAtNeeds(h: Heap, path: Paths, r: Ref, q: Key)
    requires (r.Ptr? ==> r.id in path) && !(Goal(path, r) <= q)
    ensures FindAt(h, path, Some(r), q).None?
  {
  }

  lemma ForkFinds(h: Heap, path: Paths, root: nat, p: nat, c: Byte, kidsP: Layout, r: Ref, pre: Prefix, n: nat,
        node: Inner, w: Key, k: Key, v: nat, q: Key)
    requires Forks(h, path, root, p, c, kidsP, r, pre, n, node, w, k, v)
    ensures FindAt(h, path, Some(r), k).None?
    ensures Find(Forked(h, p, kidsP, r, pre, n, node), path[n := w], n, q) == if q == k then Some(v)
      else FindAt(h, path, Some(r), q)
  {
    hide Child, Ok, NodeOk, OneParent;
    var h', path' := Forked(h, p, kidsP, r, pre, n, node), path[n := w];
    ForkInv(h, path, root, p, c, kidsP, r, pre, n, node, w, k, v);
    hide Find;
    FindAtNeeds(h, path, r, k);
    if w < q {
      FindStep(h', path', root, n, q);
      var d := q[|w|];
      if d == Goal(path, r)[|w|] {
        if r.Ptr? {
          assert Refers(h, p, c, r.id);
          Apart(h, path, root, p, c, r.id);
          FindElsewhere(h, path, h', path', root, p, c, Some(Ptr(n)), {}, r.id, q);
        }
      } else {
        FindAtNeeds(h, path, r, q);
      }
    } else {
      FindNeeds(h', path', n, q);
      FindAtNeeds(h, path, r, q);
    }
  }

  lemma ForkStep(h: Heap, path: Paths, root: nat, p: nat, c: Byte, kidsP: Layout, r: Ref, pre: Prefix, n: nat,
        node: Inner, w: Key, k: Key, v: nat)
    requires Forks(h, path, root, p, c, kidsP, r, pre, n, node, w, k, v) && Leads(h, path, root, p)
    ensures Adds(h, path, Forked(h, p, kidsP, r, pre, n, node), path[n := w], root, k, v)
  {
    hide Child, Ok, OneParent, NodeOk, Find, FindAt, Inv, Edit;
    var h', path' := Forked(h, p, kidsP, r, pre, n, node), path[n := w];
    ForkInv(h, path, root, p, c, kidsP, r, pre, n, node, w, k, v);
    FoundBefore(h, path, root, p, c, k);
    ForkFinds(h, path, root, p, c, kidsP, r, pre, n, node, w, k, v, k);
    forall q: Key ensures Find(h', path', root, q) == if q == k then Some(v) else Find(h, path, root, q) {
      EditFinds(h, path, h', path', root, p, c, Some(Ptr(n)), {}, q);
      if path[p] + [c] <= q {
        FoundBefore(h, path, root, p, c, q);
        ForkFinds(h, path, root, p, c, kidsP, r, pre, n, node, w, k, v, q);
        AtPtr(h', path', n, q);
      }
    }
  }

  lemma AtPtr(h: Heap, path: Paths, y: nat, q: Key)
    ensures FindAt(h, path, Some(Ptr(y)), q) == Find(h, path, y, q)
  {
  }

  // ---- a node with two children gives way to the second ----

  function Merged(h: Heap, p: nat, kidsP: Layout, x: nat, r: Ref, pre: Prefix): Heap
    requires p in h && (r.Ptr? ==> r.id in h)
  {
    Shortened(SetKids(h, p, kidsP), r, pre) - {x}
  }

  /** Byte c of p leads to x, which forks to a leaf for k and to r; byte c of p now leads to r. */
  ghost predicate Merges(h: Heap, path: Paths, root: nat, p: nat, c: Byte, kidsP: Layout, x: nat, b: Byte, k: Key,
        v: nat, d: Byte, r: Ref, pre: Prefix) {
    && Inv(h, path, root) && Refers(h, p, c, x) && p in path && x in h && x in path
      && (r.Ptr? ==> r.id in h && r.id in path)
    && Ok(h[x].kids) && b != d
      && (forall e: Byte ::
      Child(h[x].kids, e) == if e == b then Some(Leaf(k, v)) else if e == d then Some(r) else None)
    && Binds(h[p].kids, kidsP, c, Some(r)) && (if p == root then kidsP.kind.N256? else Sized(kidsP))
    && (r.Ptr? ==> |path[r.id]| > |path[p]| && PrefixOk(pre, path[r.id][|path[p]| + 1..]))
  }

  ghost predicate Drops(h: Heap, path: Paths, h': Heap, path': Paths, root: nat, k: Key) {
    && Inv(h', path', root)
    && forall q: Key :: Find(h', path', root, q) == if q == k then None else Find(h, path, root, q)
  }

  lemma MergeFacts(h: Heap, path: Paths, root: nat, p: nat, c: Byte, kidsP: Layout, x: nat, b: Byte, k: Key, v: nat,
        d: Byte, r: Ref, pre: Prefix)
    requires Merges(h, path, root, p, c, kidsP, x, b, k, v, d, r, pre)
    ensures p in h && path[p] + [c] <= path[x] && |path[x]| > |path[p]| && x != p && x != root && path[x] + [b] <= k
      && path[x] + [d] <= Goal(path, r)
    ensures r.Ptr? ==> Refers(h, x, d, r.id) && r.id != x && r.id != p && r.id != root && |path[r.id]| > |path[x]|
  {
    hide Child, Ok, NodeOk, OneParent;
    Apart(h, path, root, p, c, x);
    KidFacts(h, path, root, x, b);
    KidFacts(h, path, root, x, d);
    if r.Ptr? { assert Refers(h, x, d, r.id); Apart(h, path, root, x, d, r.id); }
  }

  lemma MergeEdit(h: Heap, path: Paths, root: nat, p: nat, c: Byte, kidsP: Layout, x: nat, b: Byte, k: Key, v: nat,
        d: Byte, r: Ref, pre: Prefix)
    requires Merges(h, path, root, p, c, kidsP, x, b, k, v, d, r, pre)
    ensures Edit(h, path, Merged(h, p, kidsP, x, r, pre), path - {x}, p, c, Some(r), {x})
  {
    hide Child, Ok, Inv, PrefixOk, Refers, NewRefsOk, OnlyFrom, Binds, Merged, Edit;
    MergeSlots(h, path, root, p, c, kidsP, x, b, k, v, d, r, pre);
    Domains(h, path, root);
    MergeFacts(h, path, root, p, c, kidsP, x, b, k, v, d, r, pre);
    MergeShape(h, path, p, c, kidsP, x, r, pre);
  }

  lemma MergeShape(h: Heap, path: Paths, p: nat, c: Byte, kidsP: Layout, x: nat, r: Ref, pre: Prefix)
    requires path.Keys == h.Keys && p in h && x in h && x != p && (r.Ptr? ==> r.id in h && r.id != x && r.id != p)
    requires Binds(h[p].kids, kidsP, c, Some(r)) && OnlyFrom(h, p, c, {x}, {x})
    ensures Edit(h, path, Merged(h, p, kidsP, x, r, pre), path - {x}, p, c, Some(r), {x})
  {
    MergedNodes(h, p, kidsP, x, r, pre);
    hide OnlyFrom, Binds, Merged;
  }

  lemma MergedNodes(h: Heap, p: nat, kidsP: Layout, x: nat, r: Ref, pre: Prefix)
    requires p in h && x in h && x != p && (r.Ptr? ==> r.id in h && r.id != x && r.id != p)
    ensures var h' := Merged(h, p, kidsP, x, r, pre);
      && h'.Keys == h.Keys - {x} && h'[p] == h[p].(kids := kidsP)
      && forall w: nat :: w in h && w != x && w != p ==> h'[w] == if r == Ptr(w) then h[w].(prefix := pre) else h[w]
  {
  }

  lemma MergeSlots(h: Heap, path: Paths, root: nat, p: nat, c: Byte, kidsP: Layout, x: nat, b: Byte, k: Key, v: nat,
        d: Byte, r: Ref, pre: Prefix)
    requires Merges(h, path, root, p, c, kidsP, x, b, k, v, d, r, pre)
    ensures OnlyFrom(h, p, c, {x}, {x}) && OnlyFrom(h, p, c, {x}, if r.Ptr? then {r.id} else {})
    ensures NewRefsOk(h, Merged(h, p, kidsP, x, r, pre), p, c, {x})
  {
    hide Child, Ok, Inv, PrefixOk;
    MergeFacts(h, path, root, p, c, kidsP, x, b, k, v, d, r, pre);
    SoleParent(h, path, root, p, c, x);
    if r.Ptr? { SoleParent(h, path, root, x, d, r.id); }
    var h' := Merged(h, p, kidsP, x, r, pre);
    forall u: nat, e: Byte, y: nat | NewSlot(h, p, c, u, e) && Refers(h', u, e, y)
      ensures u == p && e == c && r == Ptr(y)
    {
    }
  }

  lemma MergeInv(h: Heap, path: Paths, root: nat, p: nat, c: Byte, kidsP: Layout, x: nat, b: Byte, k: Key, v: nat,
        d: Byte, r: Ref, pre: Prefix)
    requires Merges(h, path, root, p, c, kidsP, x, b, k, v, d, r, pre)
    ensures Edit(h, path, Merged(h, p, kidsP, x, r, pre), path - {x}, p, c, Some(r), {x})
    ensures Inv(Merged(h, p, kidsP, x, r, pre), path - {x}, root)
  {
    hide Child, Ok, NodeOk, OneParent, Inv, NewRefsOk, Edit, OnlyFrom, Refers;
    MergeEdit(h, path, root, p, c, kidsP, x, b, k, v, d, r, pre);
    MergeSlots(h, path, root, p, c, kidsP, x, b, k, v, d, r, pre);
    MergeFacts(h, path, root, p, c, kidsP, x, b, k, v, d, r, pre);
    MergedNodes(h, p, kidsP, x, r, pre);
    hide Merged;
    EditKeeps(h, path, Merged(h, p, kidsP, x, r, pre), path - {x}, root, p, c, Some(r), {x},
        if r.Ptr? then {r.id} else {});
  }

  lemma MergeFinds(h: Heap, path: Paths, root: nat, p: nat, c: Byte, kidsP: Layout, x: nat, b: Byte, k: Key, v: nat,
        d: Byte, r: Ref, pre: Prefix, q: Key)
    requires Merges(h, path, root, p, c, kidsP, x, b, k, v, d, r, pre)
    ensures FindAt(Merged(h, p, kidsP, x, r, pre), path - {x}, Some(r), q) == if q == k then None
      else Find(h, path, x, q)
  {
    hide Child, Ok, NodeOk, OneParent;
    var h', path' := Merged(h, p, kidsP, x, r, pre), path - {x};
    MergeFacts(h, path, root, p, c, kidsP, x, b, k, v, d, r, pre);
    MergeInv(h, path, root, p, c, kidsP, x, b, k, v, d, r, pre);
    hide Inv, Find, Edit;
    if path[x] + [d] <= q {
      ForkOther(h, path, root, x, b, k, v, d, r, q);
      if r.Ptr? { FindElsewhere(h, path, h', path', root, p, c, Some(r), {x}, r.id, q); }
    } else {
      FindAtNeeds(h', path', r, q);
      ForkFirst(h, path, root, x, b, k, v, d, r, q);
    }
  }

  /** What is found below a node with two children. */
  lemma ForkOther(h: Heap, path: Paths, root: nat, x: nat, b: Byte, k: Key, v: nat, d: Byte, r: Ref, q: Key)
    requires Inv(h, path, root) && x in h && x in path && Ok(h[x].kids) && Child(h[x].kids, d) == Some(r) && b != d
    requires path[x] + [d] <= q && path[x] + [b] <= k
    ensures q != k && Find(h, path, x, q) == FindAt(h, path, Some(r), q)
  {
    hide Child, Ok, Inv, Find;
    FindStep(h, path, root, x, q);
    assert q[|path[x]|] == d && k[|path[x]|] == b;
  }

  lemma ForkFirst(h: Heap, path: Paths, root: nat, x: nat, b: Byte, k: Key, v: nat, d: Byte, r: Ref, q: Key)
    requires Inv(h, path, root) && x in h && x in path && Ok(h[x].kids)
    requires forall e: Byte ::
      Child(h[x].kids, e) == if e == b then Some(Leaf(k, v)) else if e == d then Some(r) else None
    requires !(path[x] + [d] <= q)
    ensures q != k ==> Find(h, path, x, q).None?
  {
    hide Child, Ok, Inv, Find;
    if path[x] < q {
      FindStep(h, path, root, x, q);
      assert path[x] + [q[|path[x]|]] <= q;
    } else {
      FindNeeds(h, path, x, q);
    }
  }

  lemma MergeStep(h: Heap, path: Paths, root: nat, p: nat, c: Byte, kidsP: Layout, x: nat, b: Byte, k: Key, v: nat,
        d: Byte, r: Ref, pre: Prefix)
    requires Merges(h, path, root, p, c, kidsP, x, b, k, v, d, r, pre) && Leads(h, path, root, p)
    ensures Drops(h, path, Merged(h, p, kidsP, x, r, pre), path - {x}, root, k)
  {
    hide Child, Ok, OneParent, NodeOk, Find, FindAt, Inv, Edit;
    var h', path' := Merged(h, p, kidsP, x, r, pre), path - {x};
    MergeFacts(h, path, root, p, c, kidsP, x, b, k, v, d, r, pre);
    MergeInv(h, path, root, p, c, kidsP, x, b, k, v, d, r, pre);
    forall q: Key ensures Find(h', path', root, q) == if q == k then None else Find(h, path, root, q) {
      EditFinds(h, path, h', path', root, p, c, Some(r), {x}, q);
      if path[p] + [c] <= q {
        FoundBefore(h, path, root, p, c, q);
        AtPtr(h, path, x, q);
        MergeFinds(h, path, root, p, c, kidsP, x, b, k, v, d, r, pre, q);
      }
    }
  }
}
