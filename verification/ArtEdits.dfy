/** One changed child pointer, with the nodes that come and go with it, on the whole tree. */
module ArtEdits {
  import opened Common
  import opened ArtNode
  import opened ArtTree

  /**
   * From (h, path) to (h', path'): byte c of node p is rebound to o; the nodes in gone are dropped, others may be
   * added.
   */
  ghost predicate Edit(h: Heap, path: Paths, h': Heap, path': Paths, p: nat, c: Byte, o: Option<Ref>, gone: set<nat>) {
    && path'.Keys == h'.Keys && p in h && p in h' && p !in gone && gone !! h'.Keys
    && (forall w: nat :: w in h && w !in gone ==>
      w in h' && w in path && path'[w] == path[w] && h'[w].level == h[w].level)
    && (forall w: nat :: w in h && w !in gone && w != p ==> h'[w].kids == h[w].kids)
    && Binds(h[p].kids, h'[p].kids, c, o)
    && OnlyFrom(h, p, c, gone, gone)
  }

  /** Nodes in ys are reached only through byte c of p, or from nodes that are dropped. */
  ghost predicate OnlyFrom(h: Heap, p: nat, c: Byte, gone: set<nat>, ys: set<nat>) {
    forall w: nat, d: Byte, y: nat :: Refers(h, w, d, y) && y in ys ==> (w == p && d == c) || w in gone
  }

  lemma {:induction false} FindElsewhere(h: Heap, path: Paths, h': Heap, path': Paths, root: nat, p: nat, c: Byte,
        o: Option<Ref>, gone: set<nat>, z: nat, q: Key)
    requires Inv(h, path, root) && Edit(h, path, h', path', p, c, o, gone) && z in h && z !in gone
    requires PathLen(path, z) > PathLen(path, p) || !(path[p] + [c] <= q)
    ensures Find(h', path', z, q) == Find(h, path, z, q)
    decreases if PathLen(path, z) <= |q| then |q| - PathLen(path, z) else 0
  {
    hide Child, Ok, OneParent;
    KidsStay(h, path, h', path', root, p, c, o, gone, z);
    if path[z] < q {
      var b := q[|path[z]|];
      assert path[z] + [b] <= q;
      KidFacts(h, path, root, z, b);
      if Child(h[z].kids, b).Some? && Child(h[z].kids, b).value.Ptr? {
        var y := Child(h[z].kids, b).value.id;
        assert Refers(h, z, b, y);
        FindElsewhere(h, path, h', path', root, p, c, o, gone, y, q);
      }
    }
  }

  /** The children of a kept node, but for byte c of p. */
  lemma KidsStay(h: Heap, path: Paths, h': Heap, path': Paths, root: nat, p: nat, c: Byte, o: Option<Ref>,
        gone: set<nat>, z: nat)
    requires Inv(h, path, root) && Edit(h, path, h', path', p, c, o, gone) && z in h && z !in gone
    ensures z in path && z in h' && z in path' && path'[z] == path[z] && Ok(h[z].kids) && Ok(h'[z].kids)
    ensures forall b: Byte :: (z == p && b == c) || Child(h'[z].kids, b) == Child(h[z].kids, b)
    ensures z == p ==> Child(h'[p].kids, c) == o
  {
    hide Child, Ok, OneParent;
    assert NodeOk(h, path, z);
  }

  lemma {:induction false} LeadsStays(h: Heap, path: Paths, h': Heap, path': Paths, root: nat, p: nat, c: Byte,
        o: Option<Ref>, gone: set<nat>, y: nat)
    requires Inv(h, path, root) && Edit(h, path, h', path', p, c, o, gone) && Leads(h, path, y, p) && y !in gone
    ensures Leads(h', path', y, p)
    decreases PathLen(path, p) - PathLen(path, y)
  {
    hide Child, Ok, OneParent;
    KidsStay(h, path, h', path', root, p, c, o, gone, y);
    if y != p {
      var b := path[p][|path[y]|];
      KidFacts(h, path, root, y, b);
      assert Refers(h, y, b, Child(h[y].kids, b).value.id);
      LeadsStays(h, path, h', path', root, p, c, o, gone, Child(h[y].kids, b).value.id);
    }
  }

  /** What a lookup from the root finds after the edit. */
  lemma EditFinds(h: Heap, path: Paths, h': Heap, path': Paths, root: nat, p: nat, c: Byte, o: Option<Ref>,
        gone: set<nat>, q: Key)
    requires Inv(h, path, root) && Edit(h, path, h', path', p, c, o, gone) && Inv(h', path', root)
      && Leads(h, path, root, p) && root !in gone
    ensures !(path[p] + [c] <= q) ==> Find(h', path', root, q) == Find(h, path, root, q)
    ensures path[p] + [c] <= q ==> Find(h', path', root, q) == FindAt(h', path', o, q)
  {
    hide Child, Ok, OneParent, NodeOk, Find, Leads;
    if path[p] + [c] <= q {
      LeadsStays(h, path, h', path', root, p, c, o, gone, root);
      KidsStay(h, path, h', path', root, p, c, o, gone, p);
      FindThrough(h', path', root, root, p, q);
      assert q[|path[p]|] == c;
      FindStep(h', path', root, p, q);
    } else {
      FindElsewhere(h, path, h', path', root, p, c, o, gone, root, q);
    }
  }

  /** And what it found before. */
  lemma FoundBefore(h: Heap, path: Paths, root: nat, p: nat, c: Byte, q: Key)
    requires Inv(h, path, root) && Leads(h, path, root, p) && path[p] + [c] <= q
    ensures Ok(h[p].kids)
    ensures Find(h, path, root, q) == FindAt(h, path, Child(h[p].kids, c), q)
  {
    hide Child, Ok, OneParent, NodeOk, Find;
    FindThrough(h, path, root, root, p, q);
    assert q[|path[p]|] == c;
    FindStep(h, path, root, p, q);
  }

  /** A slot that is new after the edit. */
  predicate NewSlot(h: Heap, p: nat, c: Byte, w: nat, d: Byte) { w !in h || (w == p && d == c) }

  ghost predicate NewRefsOk(h: Heap, h': Heap, p: nat, c: Byte, gone: set<nat>) {
    && (forall w: nat, d: Byte, w': nat, d': Byte, y: nat ::
          NewSlot(h, p, c, w, d) && NewSlot(h, p, c, w', d') && Refers(h', w, d, y) && Refers(h', w', d', y) ==>
            w == w' && d == d')
    && (forall w: nat, d: Byte, w': nat, d': Byte, y: nat ::
          NewSlot(h, p, c, w, d) && Refers(h', w, d, y) && Refers(h, w', d', y) ==> (w' == p && d' == c) || w' in gone)
  }

  /** The edit keeps the tree well formed if what is new is. */
  lemma EditKeeps(h: Heap, path: Paths, h': Heap, path': Paths, root: nat, p: nat, c: Byte, o: Option<Ref>,
        gone: set<nat>, moved: set<nat>)
    requires Inv(h, path, root) && Edit(h, path, h', path', p, c, o, gone) && root !in gone && root !in moved
    requires OnlyFrom(h, p, c, gone, moved)
    requires forall w: nat :: w in h && w !in gone && w !in moved ==> h'[w].prefix == h[w].prefix
    requires o.Some? ==> KidOk(h', path', path[p], c, o.value)
    requires if p == root then h'[p].kids.kind.N256? else Sized(h'[p].kids)
    requires forall w: nat :: w in h' && w !in h ==> NodeOk(h', path', w) && Sized(h'[w].kids)
    requires NewRefsOk(h, h', p, c, gone)
    ensures Inv(h', path', root)
  {
    hide Child, Ok;
    forall w: nat | w in h' && w in h ensures NodeOk(h', path', w) {
      EditNode(h, path, h', path', root, p, c, o, gone, moved, w);
    }
    EditParents(h, path, h', path', root, p, c, o, gone);
    hide NodeOk, OneParent;
  }

  lemma EditNode(h: Heap, path: Paths, h': Heap, path': Paths, root: nat, p: nat, c: Byte, o: Option<Ref>,
        gone: set<nat>, moved: set<nat>, w: nat)
    requires Inv(h, path, root) && Edit(h, path, h', path', p, c, o, gone) && w in h && w in h'
    requires OnlyFrom(h, p, c, gone, moved)
    requires forall w: nat :: w in h && w !in gone && w !in moved ==> h'[w].prefix == h[w].prefix
    requires o.Some? ==> KidOk(h', path', path[p], c, o.value)
    ensures NodeOk(h', path', w)
  {
    hide Child, Ok, OneParent;
    KidsStay(h, path, h', path', root, p, c, o, gone, w);
    forall b: Byte | Child(h'[w].kids, b).Some? ensures KidOk(h', path', path'[w], b, Child(h'[w].kids, b).value) {
      if w != p || b != c {
        KidFacts(h, path, root, w, b);
        var k := Child(h[w].kids, b).value;
        if k.Ptr? { assert Refers(h, w, b, k.id); }
      }
    }
    assert NodeOk(h, path, w);
  }

  lemma EditParents(h: Heap, path: Paths, h': Heap, path': Paths, root: nat, p: nat, c: Byte, o: Option<Ref>,
        gone: set<nat>)
    requires Inv(h, path, root) && Edit(h, path, h', path', p, c, o, gone) && NewRefsOk(h, h', p, c, gone)
    ensures OneParent(h')
  {
    hide Child, Ok;
    forall w: nat, b: Byte, w': nat, b': Byte, y: nat | Refers(h', w, b, y) && Refers(h', w', b', y)
      ensures w == w' && b == b'
    {
      if !NewSlot(h, p, c, w, b) { KidsStay(h, path, h', path', root, p, c, o, gone, w); assert Refers(h, w, b, y); }
      if !NewSlot(h, p, c, w', b') {
        KidsStay(h, path, h', path', root, p, c, o, gone, w');
        assert Refers(h, w', b', y);
      }
    }
  }
}
