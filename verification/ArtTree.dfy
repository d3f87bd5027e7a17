/**
 * The path-compressed tree: what a well-formed set of nodes stands for.  Every node has a path, the
 * bytes all keys below it share; the node itself keeps only the path's length and, of the part below
 * its parent, the length and the first four bytes.
 */
module ArtTree {
  import opened Common
  import opened ArtNode

  const MAX_STORED: nat := 4

  /** Of the `count` bytes skipped above a node, the first MAX_STORED. */
  datatype Prefix = Prefix(count: nat, bytes: seq<Byte>)

  datatype Inner = Inner(level: nat, prefix: Prefix, kids: Layout)

  type Heap = map<nat, Inner>

  type Paths = map<nat, Key>

  predicate PrefixOk(p: Prefix, w: Key) {
    |p.bytes| == MAX_STORED && p.count == |w| && forall i :: 0 <= i < |w| && i < MAX_STORED ==> p.bytes[i] == w[i]
  }

  /** Child c hangs at byte b of a node with path w. */
  ghost predicate KidOk(h: Heap, path: Paths, w: Key, b: Byte, c: Ref) {
    match c
    case Leaf(k, _) => w + [b] <= k
    case Ptr(y) => y in h && y in path && w + [b] <= path[y] && PrefixOk(h[y].prefix, path[y][|w| + 1..])
  }

  ghost predicate NodeOk(h: Heap, path: Paths, x: nat)
    requires x in h
  {
    && x in path && Ok(h[x].kids) && h[x].level == |path[x]|
    && forall b: Byte :: Child(h[x].kids, b).Some? ==> KidOk(h, path, path[x], b, Child(h[x].kids, b).value)
  }

  /** Byte b of node x leads to node y. */
  ghost predicate Refers(h: Heap, x: nat, b: Byte, y: nat) {
    x in h && Ok(h[x].kids) && Child(h[x].kids, b) == Some(Ptr(y))
  }

  ghost predicate OneParent(h: Heap) {
    forall x: nat, b: Byte, x': nat, b': Byte, y: nat :: Refers(h, x, b, y) && Refers(h, x', b', y) ==>
      x == x' && b == b'
  }

  ghost predicate RootOk(h: Heap, path: Paths, root: nat) {
    root in h && root in path && path[root] == [] && PrefixOk(h[root].prefix, []) && h[root].kids.kind.N256?
  }

  ghost predicate Inv(h: Heap, path: Paths, root: nat) {
    && path.Keys == h.Keys && RootOk(h, path, root) && OneParent(h)
    && (forall x: nat :: x in h ==> NodeOk(h, path, x))
    && (forall x: nat :: x in h && x != root ==> Sized(h[x].kids))
  }

  // ---- what it stands for ----

  function PathLen(path: Paths, x: nat): nat { if x in path then |path[x]| else 0 }

  /** The value bound to k below x. */
  ghost function Find(h: Heap, path: Paths, x: nat, k: Key): Option<nat>
    decreases if PathLen(path, x) <= |k| then |k| - PathLen(path, x) else 0
  {
    if x !in h || x !in path || !Ok(h[x].kids) || !(path[x] < k) then None
    else
      match Child(h[x].kids, k[|path[x]|])
      case None => None
      case Some(Leaf(q, v)) => if q == k then Some(v) else None
      case Some(Ptr(y)) => if PathLen(path, y) > |path[x]| then Find(h, path, y, k) else None
  }

  /** The value bound to k at a child pointer. */
  ghost function FindAt(h: Heap, path: Paths, o: Option<Ref>, k: Key): Option<nat> {
    match o
    case None => None
    case Some(Leaf(q, v)) => if q == k then Some(v) else None
    case Some(Ptr(y)) => Find(h, path, y, k)
  }

  /** Following the path of x from y leads to x. */
  ghost predicate Leads(h: Heap, path: Paths, y: nat, x: nat)
    decreases if PathLen(path, y) <= PathLen(path, x) then PathLen(path, x) - PathLen(path, y) else 0
  {
    && y in h && x in h && y in path && x in path
    && (y == x ||
        (path[y] < path[x] && Ok(h[y].kids) &&
         match Child(h[y].kids, path[x][|path[y]|])
         case Some(Ptr(z)) => PathLen(path, z) > |path[y]| && Leads(h, path, z, x)
         case _ => false))
  }

  function MapAt(m: map<Key, nat>, k: Key): Option<nat> { if k in m then Some(m[k]) else None }

  ghost predicate Means(h: Heap, path: Paths, root: nat, m: map<Key, nat>) {
    Inv(h, path, root) && forall k: Key :: Find(h, path, root, k) == MapAt(m, k)
  }

  // ---- walking down ----

  lemma KidFacts(h: Heap, path: Paths, root: nat, x: nat, b: Byte)
    requires Inv(h, path, root) && x in h
    ensures x in path && Ok(h[x].kids) && h[x].level == |path[x]|
    ensures Child(h[x].kids, b).Some? ==> KidOk(h, path, path[x], b, Child(h[x].kids, b).value)
    ensures x != root ==> Sized(h[x].kids)
  {
    assert NodeOk(h, path, x);
  }

  lemma Domains(h: Heap, path: Paths, root: nat)
    requires Inv(h, path, root)
    ensures path.Keys == h.Keys
  {
    hide NodeOk, OneParent, RootOk;
  }

  lemma SoleParent(h: Heap, path: Paths, root: nat, p: nat, c: Byte, x: nat)
    requires Inv(h, path, root) && Refers(h, p, c, x)
    ensures forall w: nat, d: Byte :: Refers(h, w, d, x) ==> w == p && d == c
  {
    hide NodeOk, RootOk, Refers;
  }

  lemma FindStep(h: Heap, path: Paths, root: nat, x: nat, k: Key)
    requires Inv(h, path, root) && x in h && x in path && path[x] < k
    ensures Ok(h[x].kids)
    ensures Find(h, path, x, k) ==
            FindAt(h, path, Child(h[x].kids, k[|path[x]|]), k)
  {
    KidFacts(h, path, root, x, k[|path[x]|]);
  }

  /** Only keys that extend a node's path are bound below it. */
  lemma FindNeeds(h: Heap, path: Paths, x: nat, k: Key)
    requires x in path && !(path[x] < k)
    ensures Find(h, path, x, k).None?
  {
  }

  lemma {:induction false} FindThrough(h: Heap, path: Paths, root: nat, y: nat, x: nat, k: Key)
    requires Inv(h, path, root) && Leads(h, path, y, x) && path[x] <= k
    ensures Find(h, path, y, k) == Find(h, path, x, k)
    decreases PathLen(path, x) - PathLen(path, y)
  {
    if y != x {
      var b := path[x][|path[y]|];
      KidFacts(h, path, root, y, b);
      var z := Child(h[y].kids, b).value.id;
      assert k[|path[y]|] == b;
      FindThrough(h, path, root, z, x, k);
    }
  }

  lemma {:induction false} FindAbove(h: Heap, path: Paths, root: nat, y: nat, x: nat, k: Key)
    requires Inv(h, path, root) && Leads(h, path, y, x) && k <= path[x]
    ensures Find(h, path, y, k).None?
    decreases PathLen(path, x) - PathLen(path, y)
  {
    if path[y] < k {
      var b := path[x][|path[y]|];
      KidFacts(h, path, root, y, b);
      assert k[|path[y]|] == b;
      FindAbove(h, path, root, Child(h[y].kids, b).value.id, x, k);
    }
  }

  lemma {:induction false} LeadsOn(h: Heap, path: Paths, root: nat, y: nat, x: nat, b: Byte, z: nat)
    requires Inv(h, path, root) && Leads(h, path, y, x) && Refers(h, x, b, z)
    ensures Leads(h, path, y, z)
    decreases PathLen(path, x) - PathLen(path, y)
  {
    KidFacts(h, path, root, x, b);
    if y != x {
      var d := path[x][|path[y]|];
      KidFacts(h, path, root, y, d);
      assert path[z][|path[y]|] == d;
      LeadsOn(h, path, root, Child(h[y].kids, d).value.id, x, b, z);
    }
  }

  /** A leaf below a node the root leads to is bound. */
  lemma LeafFound(h: Heap, path: Paths, root: nat, x: nat, b: Byte, k: Key, v: nat)
    requires Inv(h, path, root) && Leads(h, path, root, x) && Ok(h[x].kids) && Child(h[x].kids, b) == Some(Leaf(k, v))
    ensures path[x] + [b] <= k && Find(h, path, root, k) == Some(v)
  {
    KidFacts(h, path, root, x, b);
    FindThrough(h, path, root, root, x, k);
  }
}
