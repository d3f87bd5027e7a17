/**
 * What lookup does with a key that is a proper prefix of a stored one: it may take the leaf it comes
 * to for the key unseen.  Whether it does follows from the stored keys alone, since they determine
 * the shape of the tree.
 */
module ArtShort {
  import opened Common
  import opened ArtNode
  import opened ArtTree
  import opened ArtEdits
  import opened ArtSteps

  lemma StartAt(h: Heap, path: Paths, root: nat)
    requires Inv(h, path, root)
    ensures root in h && root in path && Leads(h, path, root, root) && path[root] == []
      && PrefixOk(h[root].prefix, path[root][0..])
  {
    hide Child, Ok;
  }

  /** No level exceeds top. */
  ghost predicate Bounded(h: Heap, top: nat) { forall x: nat :: x in h ==> h[x].level <= top }

  /** Every node below a node the root leads to, but the root, has a key below it. */
  lemma {:induction false} AnyLeaf(h: Heap, path: Paths, root: nat, top: nat, x: nat) returns (q: Key)
    requires Inv(h, path, root) && Bounded(h, top) && Leads(h, path, root, x) && x != root
    ensures path[x] < q && Find(h, path, root, q).Some?
    decreases top - PathLen(path, x)
  {
    hide Child, Ok, OneParent, Find, Leads;
    LeadsIn(h, path, root, x);
    KidFacts(h, path, root, x, 0);
    var b := SomeChild(h[x].kids);
    KidFacts(h, path, root, x, b);
    match Child(h[x].kids, b).value {
      case Leaf(k, v) =>
        LeafFound(h, path, root, x, b, k, v);
        q := k;
      case Ptr(y) =>
        assert Refers(h, x, b, y);
        LeadsOn(h, path, root, root, x, b, y);
        Apart(h, path, root, x, b, y);
        KidFacts(h, path, root, y, 0);
        q := AnyLeaf(h, path, root, top, y);
    }
  }

  lemma LeadsIn(h: Heap, path: Paths, y: nat, x: nat)
    requires Leads(h, path, y, x)
    ensures y in h && x in h && y in path && x in path
  {
  }

  lemma SomeChild(l: Layout) returns (b: Byte)
    requires Ok(l) && l.count > 0
    ensures Child(l, b).Some?
  {
    var i := SomeFilled(l);
    b := SlotBound(l, i);
  }

  // ---- lookup on a key that is a proper prefix of a stored one ----

  /** lookup takes the leaf it comes to for k unseen, and the leaf is for another key. */
  ghost predicate Misread(h: Heap, path: Paths, x: nat, k: Key, optimistic: bool)
    decreases if PathLen(path, x) <= |k| then |k| - PathLen(path, x) else 0
  {
    && x in h && x in path && path[x] < k && Ok(h[x].kids)
    && var opt := optimistic || h[x].prefix.count > MAX_STORED;
    match Child(h[x].kids, k[|path[x]|])
    case None => false
    case Some(Leaf(q, _)) => !opt && |path[x]| + 1 == |k| && q != k
    case Some(Ptr(y)) => PathLen(path, y) > |path[x]| && Misread(h, path, y, k, opt)
  }

  /** It happens only to keys that are proper prefixes of stored keys. */
  lemma {:induction false} MisreadIsShort(h: Heap, path: Paths, root: nat, x: nat, k: Key, optimistic: bool)
        returns (q: Key)
    requires Inv(h, path, root) && Leads(h, path, root, x) && Misread(h, path, x, k, optimistic)
    ensures k < q && Find(h, path, root, q).Some?
    decreases if PathLen(path, x) <= |k| then |k| - PathLen(path, x) else 0
  {
    hide Child, Ok, OneParent, Find, Leads;
    var b := k[|path[x]|];
    KidFacts(h, path, root, x, b);
    match Child(h[x].kids, b).value {
      case Leaf(key, v) =>
        LeafFound(h, path, root, x, b, key, v);
        q := key;
      case Ptr(y) =>
        assert Refers(h, x, b, y);
        LeadsOn(h, path, root, root, x, b, y);
        q := MisreadIsShort(h, path, root, y, k, optimistic || h[x].prefix.count > MAX_STORED);
    }
  }

  /** So lookup is right for every key that no other stored key extends. */
  lemma NeverMisread(h: Heap, path: Paths, root: nat, m: map<Key, nat>, k: Key)
    requires Means(h, path, root, m) && forall q: Key :: q in m ==> !(k < q)
    ensures !Misread(h, path, root, k, false)
  {
    hide Find, Misread, Leads;
    StartAt(h, path, root);
    if Misread(h, path, root, k, false) {
      var q := MisreadIsShort(h, path, root, root, k, false);
    }
  }

  /** A 256-way node with one child. */
  function Single(b: Byte, r: Ref): Layout { New(N256).(children := Blank(256)[b := Some(r)], count := 1) }

  /** With one key of two bytes stored, lookup of its first byte answers with that key's value. */
  lemma ShortKeyMisread(b: Byte, d: Byte, v: nat)
    ensures
      var h, path := map[0 := Inner(0, Prefix(0, [0, 0, 0, 0]), Single(b, Leaf([b, d], v)))], map[0 := []];
      Means(h, path, 0, map[[b, d] := v]) && Misread(h, path, 0, [b], false) && Deceives(map[[b, d] := v], [b])
  {
    var kids := Single(b, Leaf([b, d], v));
    var h, path: Paths := map[0 := Inner(0, Prefix(0, [0, 0, 0, 0]), kids)], map[0 := []];
    BlankLive(256);
    LiveSet(Blank(256), b, Some(Leaf([b, d], v)));
    assert Ok(kids) && forall e: Byte :: Child(kids, e) == if e == b then Some(Leaf([b, d], v)) else None;
    hide Child, Ok, Single;
    assert [] + [b] <= [b, d];
    assert NodeOk(h, path, 0);
    forall k: Key ensures Find(h, path, 0, k) == MapAt(map[[b, d] := v], k) { }
    MisreadIff(h, path, 0, map[[b, d] := v], 0, [b]);
  }

  // ---- the same on the stored keys ----

  /** Two stored keys part after w. */
  ghost predicate Parts(m: map<Key, nat>, w: Key, p: Key, q: Key) {
    p in m && q in m && w < p && w < q && p[|w|] != q[|w|]
  }

  /** The first i bytes of k are nothing, or all that two stored keys share. */
  ghost predicate ForkAt(m: map<Key, nat>, k: Key, i: nat) {
    i <= |k| && (i == 0 || exists p: Key, q: Key :: Parts(m, k[..i], p, q))
  }

  /** Exactly one stored key extends k, properly. */
  ghost predicate Sole(m: map<Key, nat>, k: Key) {
    exists q: Key :: q in m && k < q && forall p: Key :: p in m && k <= p ==> p == q
  }

  /** Another fork lies at most as many bytes above j as a node can skip and store. */
  ghost predicate Close(m: map<Key, nat>, k: Key, j: nat) {
    exists i: nat :: i < j <= i + MAX_STORED + 1 && ForkAt(m, k, i)
  }

  ghost predicate AllClose(m: map<Key, nat>, k: Key, from: nat) {
    forall j: nat :: from < j < |k| && ForkAt(m, k, j) ==> Close(m, k, j)
  }

  /** Exactly one stored key extends k, k ends one byte after a fork, and no two forks on the way are too far apart. */
  ghost predicate Deceives(m: map<Key, nat>, k: Key) {
    k != [] && ForkAt(m, k, |k| - 1) && Sole(m, k) && AllClose(m, k, 0)
  }

  /** A stored key that follows the path of x is bound below x. */
  lemma StoredBelow(h: Heap, path: Paths, root: nat, m: map<Key, nat>, x: nat, q: Key)
    requires Means(h, path, root, m) && Leads(h, path, root, x) && q in m && x in path && path[x] < q
    ensures x in h && Ok(h[x].kids) && FindAt(h, path, Child(h[x].kids, q[|path[x]|]), q) == Some(m[q])
  {
    hide Child, Ok, Inv, Find, Leads;
    assert Find(h, path, root, q) == Some(m[q]);
    LeadsIn(h, path, root, x);
    FindThrough(h, path, root, root, x, q);
    FindStep(h, path, root, x, q);
  }

  lemma KeyBelow(h: Heap, path: Paths, root: nat, m: map<Key, nat>, top: nat, x: nat, b: Byte) returns (q: Key)
    requires Means(h, path, root, m) && Bounded(h, top) && Leads(h, path, root, x) && x in h && x in path
    requires Ok(h[x].kids) && Child(h[x].kids, b).Some?
    ensures path[x] + [b] <= q && q in m
  {
    hide Child, Ok, OneParent, Find, Leads;
    KidFacts(h, path, root, x, b);
    match Child(h[x].kids, b).value {
      case Leaf(k, v) =>
        LeafFound(h, path, root, x, b, k, v);
        q := k;
      case Ptr(y) =>
        assert Refers(h, x, b, y);
        LeadsOn(h, path, root, root, x, b, y);
        Apart(h, path, root, x, b, y);
        q := AnyLeaf(h, path, root, top, y);
    }
    assert Find(h, path, root, q).Some?;
  }

  /** Keys part at every node. */
  lemma NodeForks(h: Heap, path: Paths, root: nat, m: map<Key, nat>, top: nat, x: nat)
        returns (p: Key, q: Key)
    requires Means(h, path, root, m) && Bounded(h, top) && Leads(h, path, root, x) && x != root && x in path
    ensures Parts(m, path[x], p, q)
  {
    hide Child, Ok, Find, Leads, Bounded, Sized;
    LeadsIn(h, path, root, x);
    KidFacts(h, path, root, x, 0);
    Domains(h, path, root);
    hide Inv;
    assert h[x].kids.count >= 2 by { SizedTwo(h[x].kids); }
    var b, d := TwoBound(h[x].kids);
    p := KeyBelow(h, path, root, m, top, x, b);
    q := KeyBelow(h, path, root, m, top, x, d);
    assert p[|path[x]|] == (path[x] + [b])[|path[x]|] && q[|path[x]|] == (path[x] + [d])[|path[x]|];
  }

  lemma NodeIsFork(h: Heap, path: Paths, root: nat, m: map<Key, nat>, top: nat, x: nat, k: Key)
    requires Means(h, path, root, m) && Bounded(h, top) && Leads(h, path, root, x) && x in path && path[x] <= k
    ensures ForkAt(m, k, |path[x]|)
  {
    hide Child, Ok, Find, Leads, Bounded, NodeOk, OneParent;
    if x != root {
      var p, q := NodeForks(h, path, root, m, top, x);
      assert k[..|path[x]|] == path[x];
      assert Parts(m, k[..|path[x]|], p, q);
    }
  }

  lemma SizedTwo(l: Layout)
    requires Sized(l)
    ensures l.count >= 2
  {
  }

  /** No keys part between a node and the next. */
  lemma NoForkBetween(h: Heap, path: Paths, root: nat, m: map<Key, nat>, x: nat, y: nat, k: Key, i: nat)
    requires Means(h, path, root, m) && Leads(h, path, root, x) && x in path && y in path && path[x] < k && path[y] <= k
    requires Refers(h, x, k[|path[x]|], y) && |path[x]| < i < |path[y]|
    ensures !ForkAt(m, k, i)
  {
    hide Child, Ok, Inv, Find, Leads;
    forall p: Key, q: Key ensures !Parts(m, k[..i], p, q) {
      if Parts(m, k[..i], p, q) {
        ThroughSlot(h, path, root, m, x, y, k, i, p);
        ThroughSlot(h, path, root, m, x, y, k, i, q);
      }
    }
  }

  /** A stored key that goes with k beyond node x goes through the next node on the way. */
  lemma ThroughSlot(h: Heap, path: Paths, root: nat, m: map<Key, nat>, x: nat, y: nat, k: Key, i: nat, p: Key)
    requires Means(h, path, root, m) && Leads(h, path, root, x) && x in path && y in path && path[x] < k
    requires Refers(h, x, k[|path[x]|], y) && |path[x]| < i <= |k| && p in m && k[..i] <= p
    ensures path[y] < p && Find(h, path, y, p).Some?
  {
    hide Child, Ok, Inv, Find, Leads;
    assert path[x] < p && p[|path[x]|] == k[..i][|path[x]|] == k[|path[x]|];
    StoredBelow(h, path, root, m, x, p);
    if !(path[y] < p) { FindNeeds(h, path, y, p); }
  }

  lemma {:induction false} SeenNever(h: Heap, path: Paths, x: nat, k: Key)
    ensures !Misread(h, path, x, k, true)
    decreases if PathLen(path, x) <= |k| then |k| - PathLen(path, x) else 0
  {
    hide Child, Ok;
    if x in h && x in path && path[x] < k && Ok(h[x].kids) && Child(h[x].kids, k[|path[x]|]).Some? {
      var c := Child(h[x].kids, k[|path[x]|]).value;
      if c.Ptr? && PathLen(path, c.id) > |path[x]| { SeenNever(h, path, c.id, k); }
    }
  }

  /** With nothing bound at its byte, no stored key extends k. */
  lemma NoneSole(h: Heap, path: Paths, root: nat, m: map<Key, nat>, x: nat, k: Key)
    requires Means(h, path, root, m) && Leads(h, path, root, x) && x in h && x in path && path[x] < k
    requires Ok(h[x].kids) && Child(h[x].kids, k[|path[x]|]).None?
    ensures !Sole(m, k)
  {
    hide Child, Ok, Inv, Find, Leads, Means;
    forall q: Key | q in m ensures !(k < q) {
      if k < q { StoredBelow(h, path, root, m, x, q); }
    }
  }

  /** A leaf is the only stored key through its pointer. */
  lemma OnlyLeaf(h: Heap, path: Paths, root: nat, m: map<Key, nat>, x: nat, k: Key, q: Key, v: nat, p: Key)
    requires Means(h, path, root, m) && Leads(h, path, root, x) && x in h && x in path && path[x] < k
    requires Ok(h[x].kids) && Child(h[x].kids, k[|path[x]|]) == Some(Leaf(q, v))
    requires p in m && path[x] < p && p[|path[x]|] == k[|path[x]|]
    ensures p == q
  {
    hide Child, Ok, Inv, Find, Leads, Means;
    StoredBelow(h, path, root, m, x, p);
  }

  lemma LeafDeceives(h: Heap, path: Paths, root: nat, m: map<Key, nat>, x: nat, k: Key, q: Key, v: nat)
    requires Means(h, path, root, m) && Leads(h, path, root, x) && x in h && x in path && path[x] < k
    requires Ok(h[x].kids) && Child(h[x].kids, k[|path[x]|]) == Some(Leaf(q, v))
    ensures |path[x]| + 1 == |k| ==> (Sole(m, k) <==> q != k)
    ensures |path[x]| + 1 < |k| ==> !ForkAt(m, k, |k| - 1)
  {
    hide Child, Ok, Inv, Find, Leads;
    LeafFound(h, path, root, x, k[|path[x]|], q, v);
    assert Find(h, path, root, q) == MapAt(m, q);
    hide Means;
    var n := |path[x]|;
    if n + 1 == |k| {
      assert path[x] + [k[n]] == k;
      forall p: Key | p in m && k <= p ensures p == q { OnlyLeaf(h, path, root, m, x, k, q, v, p); }
      assert q != k ==> k < q;
    } else {
      var w := k[..|k| - 1];
      assert path[x] < w && w[n] == k[n];
      forall p: Key, p': Key ensures !Parts(m, w, p, p') {
        if Parts(m, w, p, p') {
          OnlyLeaf(h, path, root, m, x, k, q, v, p);
          OnlyLeaf(h, path, root, m, x, k, q, v, p');
        }
      }
    }
  }

  /** A key that ends at or above the next node is extended by two stored keys or by none. */
  lemma EndsAbove(h: Heap, path: Paths, root: nat, m: map<Key, nat>, top: nat, x: nat, y: nat, k: Key)
    requires Means(h, path, root, m) && Bounded(h, top) && Leads(h, path, root, x) && Leads(h, path, root, y)
    requires x in path && y in path && y != root && path[x] < k && !(path[y] < k) && Refers(h, x, k[|path[x]|], y)
    ensures !Sole(m, k)
  {
    hide Child, Ok, Inv, Find, Leads, Means, Bounded, Refers;
    forall q: Key | q in m && k < q ensures exists p: Key :: p in m && k <= p && p != q {
      ThroughSlot(h, path, root, m, x, y, k, |k|, q);
      assert k <= path[y];
      var p, p' := NodeForks(h, path, root, m, top, y);
      assert k <= p && k <= p' && p != p';
    }
  }

  lemma CloseSteps(h: Heap, path: Paths, root: nat, m: map<Key, nat>, top: nat, x: nat, y: nat, k: Key)
    requires Means(h, path, root, m) && Bounded(h, top) && Leads(h, path, root, x) && Leads(h, path, root, y)
    requires x in path && y in path && path[x] < path[y] < k && Refers(h, x, k[|path[x]|], y)
    ensures AllClose(m, k, |path[x]|) <==> |path[y]| <= |path[x]| + MAX_STORED + 1 && AllClose(m, k, |path[y]|)
  {
    hide Child, Ok, Inv, Find, Leads, Means, Bounded, Refers, ForkAt;
    NodeIsFork(h, path, root, m, top, x, k);
    NodeIsFork(h, path, root, m, top, y, k);
    forall i: nat | |path[x]| < i < |path[y]| ensures !ForkAt(m, k, i) { NoForkBetween(h, path, root, m, x, y, k, i); }
  }

  lemma {:induction false} MisreadBelow(h: Heap, path: Paths, root: nat, m: map<Key, nat>, top: nat, x: nat, k: Key)
    requires Means(h, path, root, m) && Bounded(h, top) && Leads(h, path, root, x) && x in h && x in path && path[x] < k
    requires h[x].prefix.count <= MAX_STORED
    ensures Misread(h, path, x, k, false) <==> ForkAt(m, k, |k| - 1) && Sole(m, k) && AllClose(m, k, |path[x]|)
    decreases |k| - |path[x]|
  {
    hide Child, Ok, Find, Leads, Bounded, ForkAt, Sole, AllClose, Refers, Means;
    assert Inv(h, path, root) by { MeansInv(h, path, root, m); }
    hide Inv;
    var b := k[|path[x]|];
    KidFacts(h, path, root, x, b);
    match Child(h[x].kids, b) {
      case None => NoneSole(h, path, root, m, x, k);
      case Some(Leaf(q, v)) =>
        LeafDeceives(h, path, root, m, x, k, q, v);
        NodeIsFork(h, path, root, m, top, x, k);
        AtEnd(m, k);
      case Some(Ptr(y)) =>
        assert Refers(h, x, b, y) by { ChildRefers(h, x, b, y); }
        LeadsOn(h, path, root, root, x, b, y);
        Apart(h, path, root, x, b, y);
        if !(path[y] < k) {
          EndsAbove(h, path, root, m, top, x, y, k);
        } else {
          CloseSteps(h, path, root, m, top, x, y, k);
          if h[y].prefix.count <= MAX_STORED {
            MisreadBelow(h, path, root, m, top, y, k);
          } else {
            SkipsTooMuch(h, path, y, k);
          }
        }
    }
  }

  lemma MeansInv(h: Heap, path: Paths, root: nat, m: map<Key, nat>)
    requires Means(h, path, root, m)
    ensures Inv(h, path, root)
  {
    hide Inv, Find;
  }

  lemma ChildRefers(h: Heap, x: nat, b: Byte, y: nat)
    requires x in h && Ok(h[x].kids) && Child(h[x].kids, b) == Some(Ptr(y))
    ensures Refers(h, x, b, y)
  {
  }

  lemma AtEnd(m: map<Key, nat>, k: Key)
    requires k != []
    ensures AllClose(m, k, |k| - 1)
  {
  }

  lemma SkipsTooMuch(h: Heap, path: Paths, x: nat, k: Key)
    requires x in h && h[x].prefix.count > MAX_STORED
    ensures !Misread(h, path, x, k, false)
  {
    hide Child, Ok;
    if x in path && path[x] < k && Ok(h[x].kids) && Child(h[x].kids, k[|path[x]|]).Some? {
      var c := Child(h[x].kids, k[|path[x]|]).value;
      if c.Ptr? { SeenNever(h, path, c.id, k); }
    }
  }

  /** Whether lookup misreads k is a matter of the stored keys. */
  lemma MisreadIff(h: Heap, path: Paths, root: nat, m: map<Key, nat>, top: nat, k: Key)
    requires Means(h, path, root, m) && Bounded(h, top)
    ensures Misread(h, path, root, k, false) <==> Deceives(m, k)
  {
    hide Child, Ok, Find, Leads, Bounded, ForkAt, Sole, AllClose;
    StartAt(h, path, root);
    if k != [] { MisreadBelow(h, path, root, m, top, root, k); }
  }
}
