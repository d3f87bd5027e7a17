/**
 * P-Masstree with integer keys: get, put, in-place removal, scan and the recovery of half-finished
 * splits.  Every persisted store is recorded in a ghost log.
 */
module Masstree {
  import opened Common
  import opened CountedStack
  import opened MassNode
  import opened MassTree
  import opened MassRows
  import opened MassStores
  import opened MassSteps
  import opened MassSplit
  import opened MassScan
  import opened MassSeats

  /** What could be changed at level L or above still can. */
  ghost predicate PathsStay(t: Tree, lv: seq<seq<nat>>, t': Tree, lv': seq<seq<nat>>, L: nat) {
    forall q: nat, K: nat :: K >= L && PathClean(t, lv, q, K) ==> PathClean(t', lv', q, K)
  }

  /** The same, but for the sibling just linked in after node i of level L. */
  ghost predicate AlmostPaths(t: Tree, lv: seq<seq<nat>>, t': Tree, lv': seq<seq<nat>>, L: nat, i: nat) {
    && L < |lv'|
    && (forall q: nat :: PathClean(t, lv, q, L) ==> AlmostOn(t', lv'[L], i, q) && PathClean(t', lv', q, L + 1))
    && forall q: nat, K: nat :: K > L && PathClean(t, lv, q, K) ==> PathClean(t', lv', q, K)
  }

  /** No node of level L still lists what its sibling has taken over. */
  ghost predicate LevelClean(t: Tree, lv: seq<seq<nat>>, L: nat) {
    L < |lv| && In(t.nodes, lv[L]) && AllClean(View(t.nodes, lv[L]))
  }

  /** The same, but for node i and the sibling just linked in after it. */
  ghost predicate AlmostClean(t: Tree, lv: seq<seq<nat>>, L: nat, i: nat) {
    L < |lv| && In(t.nodes, lv[L]) && forall j: nat :: j != i + 1 ==> CleanAt(View(t.nodes, lv[L]), j)
  }

  /** The child of an inner node on the way to k. */
  lemma ChildFor(t: Tree, lv: seq<seq<nat>>, L: nat, i: nat, k: nat, b: int) returns (j: nat)
    requires TreeOk(t, lv) && 0 < L < |lv| && i < |lv[L]| && In(t.nodes, lv[L]) && In(t.nodes, lv[L - 1])
    requires
      var n := t.nodes[lv[L][i]];
      n.low <= k && Below(k, FenceOf(View(t.nodes, lv[L]), i)) && -1 <= b < |Listed(n)|
    requires var s := Listed(t.nodes[lv[L][i]]); forall j :: 0 <= j < |s| ==> (j <= b <==> s[j].key <= k)
    ensures var n := t.nodes[lv[L][i]]; var c := if b >= 0 then Listed(n)[b].value else n.leftmost;
      && j < |lv[L - 1]| && lv[L - 1][j] == c && n.low <= t.nodes[c].low <= k && CleanAt(View(t.nodes, lv[L - 1]), j)
  {
    hide TreeOk, RowOk, LevelOk, CleanAt, ParentAt, NodeAt, HasChild;
    LevelFacts(t, lv, L);
    NodeAtLevel(View(t.nodes, lv[L]), L, i);
    assert ParentAt(View(t.nodes, lv[L])[i], FenceOf(View(t.nodes, lv[L]), i), View(t.nodes, lv[L - 1]), lv[L - 1]);
    j := ChildOf(t.nodes[lv[L][i]], L, FenceOf(View(t.nodes, lv[L]), i), View(t.nodes, lv[L - 1]), lv[L - 1], k, b);
  }

  lemma ChildOf(n: Node, L: nat, fence: Option<nat>, ns: seq<Node>, ids: seq<nat>, k: nat, b: int) returns (j: nat)
    requires L > 0 && NodeAt(n, L) && ParentAt(n, fence, ns, ids) && n.low <= k && Below(k, fence)
    requires -1 <= b < |Listed(n)| && forall j :: 0 <= j < |Listed(n)| ==> (j <= b <==> Listed(n)[j].key <= k)
    ensures j < |ids| == |ns| && ids[j] == (if b >= 0 then Listed(n)[b].value else n.leftmost)
      && n.low <= ns[j].low <= k && CleanAt(ns, j)
  {
    hide CleanAt;
    if b >= 0 {
      j :| IsChild(ns, ids, Listed(n)[b].value, Listed(n)[b].key, j);
    } else {
      j :| IsChild(ns, ids, n.leftmost, n.low, j);
    }
  }

  /** The entry e leads to a node of the level below L. */
  ghost predicate ChildBelow(t: Tree, lv: seq<seq<nat>>, L: nat, e: Slot) {
    0 < L <= |lv| && In(t.nodes, lv[L - 1]) && HasChild(View(t.nodes, lv[L - 1]), lv[L - 1], e.value, e.key)
  }

  /** Nodes x and y of level L have the fences a and b, and the one that is to list k does. */
  ghost predicate Adopted(t: Tree, lv: seq<seq<nat>>, L: nat, i: nat, x: nat, y: nat, a: nat, b: nat, k: nat) {
    && L < |lv| && In(t.nodes, lv[L]) && CleanAt(View(t.nodes, lv[L]), i + 1) && x in t.nodes && y in t.nodes
    && t.nodes[x].low == a && t.nodes[y].low == b && Lists(t.nodes[if k < b then x else y], k)
  }

  ghost predicate SameLows(ns: map<nat, Node>, ns': map<nat, Node>, ids: seq<nat>) {
    In(ns, ids) && In(ns', ids) && forall j: nat :: j < |ids| ==> ns'[ids[j]].low == ns[ids[j]].low
  }

  // ---- what one persisted store can do to a tree ----

  /** Slot j of node x. */
  predicate SlotStore(t: Tree, t': Tree, x: nat, j: nat) {
    && x in t.nodes && x in t'.nodes && j < |t.nodes[x].entry| && j < |t'.nodes[x].entry|
    && t' == t.(nodes := t.nodes[x := t.nodes[x].(entry := t.nodes[x].entry[j := t'.nodes[x].entry[j]])])
  }

  /** The permutation of node x. */
  predicate PermStore(t: Tree, t': Tree, x: nat) {
    x in t.nodes && x in t'.nodes && t' == t.(nodes := t.nodes[x := t.nodes[x].(perm := t'.nodes[x].perm)])
  }

  /** The next pointer of node x. */
  predicate NextStore(t: Tree, t': Tree, x: nat) { x in t'.next && t' == t.(next := t.next[x := t'.next[x]]) }

  predicate RootStore(t: Tree, t': Tree) { t' == t.(root := t'.root) }

  /** A node x that was not there before, filled while nothing leads to it. */
  predicate NewNode(t: Tree, t': Tree, x: nat) {
    && x !in t.nodes && x in t'.nodes && x in t'.next
    && t' == t.(nodes := t.nodes[x := t'.nodes[x]], next := t.next[x := t'.next[x]])
  }

  /** One persisted word has changed, or a new node was filled. */
  ghost predicate OneStore(t: Tree, t': Tree) {
    || (exists x: nat, j: nat :: SlotStore(t, t', x, j))
    || (exists x: nat :: PermStore(t, t', x))
    || (exists x: nat :: NextStore(t, t', x))
    || RootStore(t, t')
    || exists x: nat :: NewNode(t, t', x)
  }

  /** The log ends with the present tree, and from each state to the next it takes one store. */
  ghost predicate Trace(log: seq<Tree>, t: Tree) {
    log != [] && log[|log| - 1] == t && forall i: nat :: i + 1 < |log| ==> OneStore(log[i], log[i + 1])
  }

  lemma OneSlot(t: Tree, t': Tree, x: nat, j: nat)
    requires SlotStore(t, t', x, j)
    ensures OneStore(t, t')
  {
  }

  lemma OnePerm(t: Tree, t': Tree, x: nat)
    requires PermStore(t, t', x)
    ensures OneStore(t, t')
  {
  }

  lemma OneNext(t: Tree, t': Tree, x: nat)
    requires NextStore(t, t', x)
    ensures OneStore(t, t')
  {
  }

  lemma OneRoot(t: Tree, t': Tree)
    requires RootStore(t, t')
    ensures OneStore(t, t')
  {
  }

  lemma OneNew(t: Tree, t': Tree, x: nat)
    requires NewNode(t, t', x)
    ensures OneStore(t, t')
  {
  }

  lemma TraceOn(log: seq<Tree>, t: Tree, t': Tree)
    requires Trace(log, t) && OneStore(t, t')
    ensures Trace(log + [t'], t')
  {
    hide OneStore;
    var on := log + [t'];
    forall i: nat | i + 1 < |on| ensures OneStore(on[i], on[i + 1]) {
      if i + 1 < |log| { assert OneStore(log[i], log[i + 1]); }
    }
  }

  class Masstree {
    var nodes: map<nat, Node>
    var next: map<nat, Option<nat>>
    var root: nat
    var brk: nat
    ghost var lv: seq<seq<nat>>
    ghost var log: seq<Tree>

    ghost function Image(): Tree
      reads this
    {
      Tree(nodes, next, root)
    }

    /** The tree stands for m, and the log tells how it came about, store by store. */
    ghost predicate Valid(m: map<nat, nat>)
      reads this
    {
      Denotes(Image(), lv, m) && Trace(log, Image()) && forall x: nat :: x in nodes ==> x < brk
    }

    /** No leaf split is half done. */
    ghost predicate Clean()
      reads this
    {
      LevelClean(Image(), lv, 0)
    }

    /** Every node but the root is a child of a node one level up. */
    ghost predicate Balanced()
      reads this
    {
      Full(Image(), lv)
    }

    /** Every state persisted since `was` stands for m. */
    ghost predicate Kept(was: seq<Tree>, m: map<nat, nat>)
      reads this
    {
      was <= log && forall i :: |was| <= i < |log| ==> Means(log[i], m)
    }

    constructor ()
      ensures Valid(map[]) && Clean() && Balanced() && log == [Image()]
    {
      var n := Node(0, BLANK, MakeSorted(0), 0, 0);
      nodes, next, root, brk := map[0 := n], map[0 := None], 0, 1;
      lv := [[0]];
      log := [Tree(map[0 := n], map[0 := None], 0)];
      EmptyTree(n);
    }

    /** Restarting from any persisted state that stands for m. */
    constructor Reopen(t: Tree, top: nat, ghost m: map<nat, nat>)
      requires Means(t, m) && forall x: nat :: x in t.nodes ==> x < top
      ensures Valid(m) && Image() == t && log == [t]
    {
      nodes, next, root, brk := t.nodes, t.next, t.root, top;
      ghost var w :| Denotes(t, w, m);
      lv := w;
      log := [t];
    }

    // ---- one persisted store each ----

    method StoreSlot(x: nat, j: nat, e: Slot, ghost m: map<nat, nat>)
      requires x in nodes && j < |nodes[x].entry| && Trace(log, Image()) && (forall x: nat :: x in nodes ==> x < brk)
      requires Denotes(SetNode(Image(), x, nodes[x].(entry := nodes[x].entry[j := e])), lv, m)
      modifies `nodes, `log
      ensures Image() == SetNode(old(Image()), x, old(nodes)[x].(entry := old(nodes)[x].entry[j := e]))
      ensures Valid(m) && log == old(log) + [Image()] && Means(Image(), m)
    {
      hide Denotes, OneStore, Trace;
      ghost var t := Image();
      nodes := nodes[x := nodes[x].(entry := nodes[x].entry[j := e])];
      log := log + [Image()];
      assert OneStore(t, Image()) by { assert SlotStore(t, Image(), x, j); OneSlot(t, Image(), x, j); }
      TraceOn(old(log), t, Image());
    }

    method StorePerm(x: nat, perm: Perm, ghost m: map<nat, nat>)
      requires x in nodes && Trace(log, Image()) && (forall x: nat :: x in nodes ==> x < brk)
      requires Denotes(SetNode(Image(), x, nodes[x].(perm := perm)), lv, m)
      modifies `nodes, `log
      ensures Image() == SetNode(old(Image()), x, old(nodes)[x].(perm := perm))
      ensures Valid(m) && log == old(log) + [Image()] && Means(Image(), m)
    {
      hide Denotes, OneStore, Trace;
      ghost var t := Image();
      nodes := nodes[x := nodes[x].(perm := perm)];
      log := log + [Image()];
      assert OneStore(t, Image()) by { assert PermStore(t, Image(), x); OnePerm(t, Image(), x); }
      TraceOn(old(log), t, Image());
    }

    method StoreNext(x: nat, nx: Option<nat>, ghost lv': seq<seq<nat>>, ghost m: map<nat, nat>)
      requires Denotes(SetNext(Image(), x, nx), lv', m) && Trace(log, Image()) && forall x: nat :: x in nodes ==>
        x < brk
      modifies `next, `lv, `log
      ensures Image() == SetNext(old(Image()), x, nx) && lv == lv' && Valid(m) && log == old(log) + [Image()]
        && Means(Image(), m)
    {
      hide Denotes, OneStore, Trace;
      ghost var t := Image();
      next := next[x := nx];
      lv := lv';
      log := log + [Image()];
      assert OneStore(t, Image()) by { assert NextStore(t, Image(), x); OneNext(t, Image(), x); }
      TraceOn(old(log), t, Image());
    }

    method StoreRoot(x: nat, ghost lv': seq<seq<nat>>, ghost m: map<nat, nat>)
      requires Denotes(Image().(root := x), lv', m) && Trace(log, Image()) && forall x: nat :: x in nodes ==> x < brk
      modifies `root, `lv, `log
      ensures Image() == old(Image()).(root := x) && lv == lv' && Valid(m) && log == old(log) + [Image()]
        && Means(Image(), m)
    {
      hide Denotes, OneStore, Trace;
      ghost var t := Image();
      root := x;
      lv := lv';
      log := log + [Image()];
      assert OneStore(t, Image()) by { assert RootStore(t, Image()); OneRoot(t, Image()); }
      TraceOn(old(log), t, Image());
    }

    /** Allocates and fills a node nobody points to. */
    method Allocate(n: Node, nx: Option<nat>, ghost m: map<nat, nat>) returns (x: nat)
      requires Valid(m)
      modifies `nodes, `next, `brk, `log
      ensures Image() == AddNode(old(Image()), x, n, nx) && x !in old(nodes) && Fresh(lv, x) && Valid(m)
      ensures log == old(log) + [Image()] && Means(Image(), m)
      ensures SameBelow(old(Image()), lv, Image(), lv, |lv|) && PathsStay(old(Image()), lv, Image(), lv, 0)
    {
      hide OneStore, Trace;
      x := brk;
      Unallocated(Image(), lv, x);
      PrepareStep(Image(), lv, m, x, n, nx);
      hide Denotes, PathClean;
      ghost var t := Image();
      nodes, next, brk := nodes[x := n], next[x := nx], brk + 1;
      log := log + [Image()];
      assert OneStore(t, Image()) by { assert NewNode(t, Image(), x); OneNew(t, Image(), x); }
      TraceOn(old(log), t, Image());
    }

    // ---- searching ----

    /** advance_to_key: one hop to the right if the key is not below the sibling's fence. */
    method AdvanceToKey(x: nat, key: nat, ghost m: map<nat, nat>, ghost L: nat, ghost i: nat) returns (y: nat)
      requires Valid(m) && L < |lv| && i < |lv[L]| && lv[L][i] == x && In(nodes, lv[L])
      ensures y == if i + 1 < |lv[L]| && nodes[lv[L][i + 1]].low <= key then lv[L][i + 1] else x
      ensures y == x <==> Below(key, FenceOf(View(nodes, lv[L]), i))
    {
      LevelFacts(Image(), lv, L);
      NextKnown(Image(), lv[L], i);
      var nx := next[x];
      if nx.Some? && nodes[nx.value].low <= key { return nx.value; }
      return x;
    }

    /** From an inner node whose fences enclose the key to its child for that key. */
    method ChildForKey(x: nat, key: nat, ghost m: map<nat, nat>, ghost L: nat, ghost i: nat)
          returns (y: nat, ghost j: nat)
      requires Valid(m) && 0 < L < |lv| && In(nodes, lv[L]) && i < |lv[L]| && lv[L][i] == x
      requires nodes[x].low <= key && Below(key, FenceOf(View(nodes, lv[L]), i))
      ensures In(nodes, lv[L - 1]) && j < |lv[L - 1]| && lv[L - 1][j] == y && nodes[x].low <= nodes[y].low <= key
      ensures CleanAt(View(nodes, lv[L - 1]), j) && nodes[y].level == L - 1
    {
      hide Trace, TreeOk, RowOk, LevelOk, ParentsOk, CleanAt, NodeAt;
      LevelFacts(Image(), lv, L);
      LevelFacts(Image(), lv, L - 1);
      NodeAtLevel(View(nodes, lv[L]), L, i);
      var n := nodes[x];
      NodeShape(n, L);
      var b := KeyLowerBound(n, key);
      j := ChildFor(Image(), lv, L, i, key, b);
      y := if b >= 0 then SlotAt(n, b).value else n.leftmost;
    }

    /** The node of level L between whose fences the key lies, found from the root. */
    method FindNode(key: nat, L: nat, ghost m: map<nat, nat>) returns (x: nat, ghost i: nat)
      requires Valid(m) && L < |lv|
      ensures In(nodes, lv[L]) && lv[L] != [] && i == Cover(View(nodes, lv[L]), key, 0) && x == lv[L][i] && x in nodes
    {
      hide Trace, TreeOk, RowOk, LevelOk, ParentsOk, Cover, CleanAt, Lookup;
      x := root;
      ghost var K := |lv| - 1;
      i := 0;
      RootIs(Image(), lv);
      while true
        invariant L <= K < |lv| && In(nodes, lv[K]) && i < |lv[K]| && x == lv[K][i] && nodes[x].low <= key
          && nodes[x].level == K
        decreases K, |lv[K]| - i
      {
        var y := AdvanceToKey(x, key, m, K, i);
        LevelFacts(Image(), lv, K);
        if y != x {
          x, i := y, i + 1;
        } else if nodes[x].level == L {
          RowStarts(View(nodes, lv[L]), L);
          CoverIs(View(nodes, lv[L]), L, key, 0, i);
          return;
        } else {
          x, i := ChildForKey(x, key, m, K, i);
          K := K - 1;
        }
      }
    }

    /** get: what the map says. */
    method Get(key: nat, ghost m: map<nat, nat>) returns (r: Option<nat>)
      requires Valid(m)
      ensures r == MapAt(m, key)
    {
      var x, i := FindNode(key, 0, m);
      LevelFacts(Image(), lv, 0);
      NodeAtLevel(View(nodes, lv[0]), 0, i);
      var n := nodes[x];
      var p, found := KeyLowerBoundBy(n, key);
      if found { return Some(SlotAt(n, p).value); }
      return None;
    }

    // ---- writing ----

    /** assign and insert_from_back in an inner node with room: the child becomes visible. */
    method Adopt(x: nat, ghost L: nat, ghost i: nat, n: Node, ghost fence: Option<nat>, p: nat, e: Slot,
          ghost m: map<nat, nat>)
      requires Valid(m) && L > 0 && NodeIs(Image(), lv, L, i, n, fence) && x == lv[L][i] && n.perm.size < WIDTH
        && NodeOk(n)
      requires Fits(n, e, fence) && p == Rank(Listed(n), e.key)
      requires In(nodes, lv[L - 1]) && HasChild(View(nodes, lv[L - 1]), lv[L - 1], e.value, e.key)
      modifies `nodes, `log
      ensures Valid(m) && Kept(old(log), m)
      ensures SameBelow(old(Image()), lv, Image(), lv, L) && PathsStay(old(Image()), lv, Image(), lv, 0)
      ensures nodes == old(nodes)[x := nodes[x]] && nodes[x].low == n.low && In(nodes, lv[L]) && Lists(nodes[x], e.key)
      ensures forall j: nat :: CleanAt(View(old(nodes), lv[L]), j) ==> CleanAt(View(nodes, lv[L]), j)
      ensures SeatsStay(old(Image()), lv, Image(), lv, 0, None)
    {
      hide Trace, TreeOk, RowOk, LevelOk, ParentsOk, PathClean, NodeAt, Keeps, HasChild, Lookup, Rank, CleanAt;
      var n1 := n.(entry := n.entry[Back(n.perm) := e]);
      AssignFree(n, e);
      NodeFacts(Image(), lv, L, i, n, fence);
      KeepsSame(n, n1, fence, L);
      AssignStep(Image(), lv, m, L, i, n, fence, n1);
      PlaceSet(Image(), lv, L, i, n, fence, n1);
      BelowSet(Image(), lv, L, i, n1);
      StoreSlot(x, Back(n.perm), e, m);
      var n2 := n1.(perm := InsertFromBack(n1.perm, p));
      Publish(n1, p);
      NodeFacts(Image(), lv, L, i, n1, fence);
      KeepsInserted(n1, n2, e, fence, L);
      AdoptStep(Image(), lv, m, L, i, n1, fence, n2, e);
      PlaceSet(Image(), lv, L, i, n1, fence, n2);
      BelowSet(Image(), lv, L, i, n2);
      assert Listed(n2)[p].key == e.key;
      AdoptSeats(old(Image()), lv, L, i, n, fence, n2, p, e, m);
      hide Denotes, NodeIs, Listed, SeatsStay;
      StorePerm(x, n2.perm, m);
    }

    /** A full node that was linked to a sibling but never cut takes the sibling back. */
    method TakeBack(x: nat, ghost L: nat, ghost i: nat, n: Node, ghost fence: Option<nat>, ghost m: map<nat, nat>)
          returns (ghost fence': Option<nat>)
      requires Valid(m) && NodeIs(Image(), lv, L, i, n, fence) && x == lv[L][i] && n.perm.size > 0 && NodeOk(n)
      modifies `next, `lv, `log
      ensures Valid(m) && Kept(old(log), m) && |lv| == |old(lv)| && L < |lv| && i < |lv[L]| && lv[L][i] == x
      ensures NodeIs(Image(), lv, L, i, n, fence') && Under(n, fence')
      ensures forall k: nat :: Below(k, fence) ==> Below(k, fence')
      ensures SameBelow(old(Image()), old(lv), Image(), lv, L) && PathsStay(old(Image()), old(lv), Image(), lv, L)
      ensures L > 0 ==> In(nodes, old(lv)[L - 1]) && lv[L - 1] == old(lv)[L - 1] && nodes == old(nodes)
      ensures LevelClean(old(Image()), old(lv), L) ==> LevelClean(Image(), lv, L)
      ensures old(In(nodes, lv[L]) && CleanAt(View(nodes, lv[L]), i + 1)) ==>
                Image() == old(Image()) && lv == old(lv) && fence' == fence
    {
      hide Trace, TreeOk, NodeIs, Denotes, Under, SameBelow, PathsStay, Without, NodeOk, LevelClean, CleanAt;
      TreeOf(Image(), lv, m);
      CleanUnder(Image(), lv, L, i, n, fence);
      NextOf(Image(), lv, L, i, n, fence);
      Unchanged(Image(), lv, L);
      var nx := next[x];
      fence' := fence;
      if nx.Some? {
        LastListed(n);
        TornTest(Image(), lv, L, i, n, nodes[nx.value].low);
        NextClean(Image(), lv, L, i, n, fence);
        if SlotAt(n, n.perm.size - 1).key > nodes[nx.value].low {
          fence' := Unlinked(Image(), lv, m, L, i, n, nodes[nx.value].low);
          StoreNext(x, next[nx.value], lv[L := Without(lv[L], i + 1)], m);
        }
      } else {
        NoFence(n);
      }
    }

    /** Fills a right sibling and links it. */
    method LinkSibling(x: nat, ghost L: nat, ghost i: nat, n: Node, ghost fence: Option<nat>, r: Node,
          ghost m: map<nat, nat>) returns (y: nat)
      requires Valid(m) && NodeIs(Image(), lv, L, i, n, fence) && x == lv[L][i] && TakesOver(n, r, fence)
      modifies `nodes, `next, `brk, `lv, `log
      ensures Valid(m) && Kept(old(log), m) && |lv| == |old(lv)| && L < |lv| && i + 1 < |lv[L]| && lv[L][i] == x
        && lv[L][i + 1] == y
      ensures NodeIs(Image(), lv, L, i, n, Some(r.low)) && y in nodes && nodes[y] == r
        && FenceOf(View(nodes, lv[L]), i + 1) == fence
      ensures SameBelow(old(Image()), old(lv), Image(), lv, L) && AlmostPaths(old(Image()), old(lv), Image(), lv, L, i)
      ensures LevelClean(old(Image()), old(lv), L) ==> AlmostClean(Image(), lv, L, i)
      ensures nodes == old(nodes)[y := r] && Fresh(old(lv), y) && lv == old(lv)[L := Inserted(old(lv)[L], i + 1, y)]
    {
      hide Trace, TreeOk, RowOk, LevelOk, ParentsOk, PathClean, NodeAt, Lookup, CleanAt, Under, TakesOver, Fresh,
        AlmostPaths,
           LevelClean, AlmostClean, PathsStay, SameBelow, Denotes, NodeIs;
      Placed(Image(), lv, L, i, n, fence, m);
      y := Allocate(r, next[x], m);
      LinkAll(old(Image()), Image(), lv, m, L, i, n, fence, y);
      StoreNext(x, Some(y), lv[L := Inserted(lv[L], i + 1, y)], m);
    }

    /** Fills a right sibling, links it, and cuts the left node back. */
    method MakeSibling(x: nat, ghost L: nat, ghost i: nat, n: Node, ghost fence: Option<nat>, r: Node, keep: nat,
          ghost m: map<nat, nat>) returns (y: nat)
      requires Valid(m) && NodeIs(Image(), lv, L, i, n, fence) && x == lv[L][i] && TakesOver(n, r, fence)
      requires keep <= n.perm.size && Front(Listed(n), r.low) == Listed(n)[..keep]
      modifies `nodes, `next, `brk, `lv, `log
      ensures Valid(m) && Kept(old(log), m) && |lv| == |old(lv)| && L < |lv| && i + 1 < |lv[L]| && lv[L][i] == x
        && lv[L][i + 1] == y
      ensures x in nodes && nodes[x] == n.(perm := SetSize(n.perm, keep)) && Listed(nodes[x]) == Listed(n)[..keep]
      ensures NodeIs(Image(), lv, L, i, nodes[x], Some(r.low)) && NodeIs(Image(), lv, L, i + 1, r, fence)
      ensures y in nodes && nodes[y] == r
      ensures SameBelow(old(Image()), old(lv), Image(), lv, L) && PathsStay(old(Image()), old(lv), Image(), lv, L)
      ensures LevelClean(old(Image()), old(lv), L) ==> LevelClean(Image(), lv, L)
      ensures SeatsStay(old(Image()), old(lv), Image(), lv, L, Some(r.low))
    {
      hide Trace, TreeOk, RowOk, LevelOk, ParentsOk, PathClean, NodeAt, Lookup, Rank, CleanAt, Under, TakesOver, Front,
           AlmostPaths, LevelClean, AlmostClean, SeatsStay;
      y := LinkSibling(x, L, i, n, fence, r, m);
      ghost var t2, lv2 := Image(), lv;
      var n' := n.(perm := SetSize(n.perm, keep));
      CutNode(n, r, fence, keep);
      CutStep(t2, lv2, m, L, i, n, r.low, n');
      CutPaths(t2, lv2, L, i, n, r.low, n', old(Image()), old(lv));
      CutPlaces(t2, lv2, L, i, n, r.low, n', y, r, fence);
      CutCleans(t2, lv2, L, i, n, r.low, n');
      BelowSet(t2, lv2, L, i, n');
      SiblingSeats(old(Image()), old(lv), L, i, n, fence, y, r, n', SetNode(t2, x, n'));
      hide Denotes, Listed;
      StorePerm(x, n'.perm, m);
    }

    /** A new root above the old one and its right sibling. */
    method RaiseRoot(x: nat, y: nat, ghost m: map<nat, nat>)
      requires Valid(m) && x == root && y in nodes && x in nodes
      requires
        var ids := lv[|lv| - 1];
        In(nodes, ids) && |ids| >= 2 && ids[0] == x && ids[1] == y && CleanAt(View(nodes, ids), 1)
      modifies `nodes, `next, `brk, `root, `lv, `log
      ensures Valid(m) && Kept(old(log), m) && |lv| == |old(lv)| + 1
      ensures SameBelow(old(Image()), old(lv), Image(), lv, |old(lv)|)
        && PathsStay(old(Image()), old(lv), Image(), lv, 0)
      ensures Parented(Image(), lv, |old(lv)|, old(nodes)[y].low)
      ensures FullBut(old(Image()), old(lv), |old(lv)| - 1, Some(old(nodes)[y].low)) ==> Balanced()
    {
      hide Trace, TreeOk, RowOk, LevelOk, ParentsOk, PathClean, NodeAt, Lookup, Rank, CleanAt, Under, Fresh, Parented,
           FullBut;
      RootIs(Image(), lv);
      var n := Node(nodes[x].level + 1, BLANK[0 := Slot(nodes[y].low, y)], MakeSorted(1), x, 0);
      RootNode(n, nodes[y].low, y);
      ghost var ids, t0 := lv[|lv| - 1], Image();
      var id := Allocate(n, None, m);
      ghost var t1 := Image();
      assert View(t1.nodes, ids) == View(t0.nodes, ids);
      assert RootOver(n, |lv|, View(t1.nodes, ids), ids);
      RootStep(t1, lv, m, id);
      hide Denotes, RootOver;
      RootParents(t1.(root := id), lv + [[id]], id, n, t0.nodes[y].low);
      StoreRoot(id, lv + [[id]], m);
      if FullBut(t0, old(lv), |old(lv)| - 1, Some(t0.nodes[y].low)) {
        FullRaised(t0, old(lv), t0.nodes[y].low, Image(), lv, id);
      }
    }

    /** The split of a full inner node: takes back, links, cuts, and adds the child to its half. */
    method SplitInner(x: nat, ghost L: nat, ghost i: nat, n: Node, ghost fence: Option<nat>, p: nat, e: Slot,
          ghost m: map<nat, nat>)
      returns (y: nat, r: Node)
      requires Valid(m) && L > 0 && NodeIs(Image(), lv, L, i, n, fence) && x == lv[L][i] && NodeAt(n, L)
        && n.perm.size == WIDTH
      requires Fits(n, e, fence) && p == Rank(Listed(n), e.key)
      requires In(nodes, lv[L - 1]) && HasChild(View(nodes, lv[L - 1]), lv[L - 1], e.value, e.key)
        && PathClean(Image(), lv, e.key, L)
      modifies `nodes, `next, `brk, `lv, `log
      ensures Valid(m) && Kept(old(log), m) && |lv| == |old(lv)| && L < |lv| && i + 1 < |lv[L]| && lv[L][i] == x
        && lv[L][i + 1] == y
      ensures SameBelow(old(Image()), old(lv), Image(), lv, L) && PathsStay(old(Image()), old(lv), Image(), lv, L)
      ensures In(nodes, lv[L]) && CleanAt(View(nodes, lv[L]), i + 1) && nodes[y].low == r.low
        && PathClean(Image(), lv, r.low, L + 1)
      ensures Parented(Image(), lv, L, e.key)
      ensures FullBut(old(Image()), old(lv), L - 1, Some(e.key)) ==> FullBut(Image(), lv, L, Some(r.low))
    {
      hide Trace, TreeOk, RowOk, LevelOk, ParentsOk, PathClean, Lookup, Rank, CleanAt, HasChild, NodeAt,
           TakesOver, Under, Front, Fits, Listed, NodeOk, PathsStay, SameBelow, Denotes, Below, FullBut, SeatsStay;
      ghost var fence';
      ghost var t0, lv0 := Image(), lv;
      FullClean(t0, lv0, m, L - 1, Some(e.key), L, i, n, fence);
      y, r, fence' := HalveInner(x, L, i, n, fence, p, e, m);
      ghost var t1 := Image();
      ChildStays(t0, lv0, t1, lv, L, e);
      AdoptHalf(x, y, L, i, nodes[x], fence', r, p, e, m);
      Trans(t0, lv0, t1, lv, Image(), lv, L);
      PathKept(t1, lv, Image(), lv, r.low, L + 1);
      TreeOf(Image(), lv, m);
      ParentedHalf(t1, Image(), lv, L, i, t1.nodes[x], r, fence', e, p);
      SplitSeats(t0, lv0, t1, lv, Image(), L, r.low, e.key, m);
    }

    /** Takes back, links and cuts. */
    method HalveInner(x: nat, ghost L: nat, ghost i: nat, n: Node, ghost fence: Option<nat>, ghost p: nat,
          ghost e: Slot, ghost m: map<nat, nat>)
      returns (y: nat, r: Node, ghost fence': Option<nat>)
      requires Valid(m) && L > 0 && NodeIs(Image(), lv, L, i, n, fence) && x == lv[L][i] && NodeAt(n, L)
        && n.perm.size == WIDTH
      requires Fits(n, e, fence) && p == Rank(Listed(n), e.key) && PathClean(Image(), lv, e.key, L)
      modifies `nodes, `next, `brk, `lv, `log
      ensures Valid(m) && Kept(old(log), m) && |lv| == |old(lv)| && L < |lv| && i + 1 < |lv[L]| && lv[L][i] == x
        && lv[L][i + 1] == y
      ensures SameBelow(old(Image()), old(lv), Image(), lv, L) && PathsStay(old(Image()), old(lv), Image(), lv, L)
      ensures x in nodes && HalvesFit(nodes[x], r, fence', e, p) && PathClean(Image(), lv, r.low, L + 1)
      ensures NodeIs(Image(), lv, L, i, nodes[x], Some(r.low)) && NodeIs(Image(), lv, L, i + 1, r, fence')
      ensures old(In(nodes, lv[L]) && CleanAt(View(nodes, lv[L]), i + 1)) ==>
                SeatsStay(old(Image()), old(lv), Image(), lv, L, Some(r.low))
    {
      hide Trace, TreeOk, RowOk, LevelOk, ParentsOk, PathClean, Lookup, Rank, CleanAt, NodeAt, TakesOver, Under,
           Front, Fits, PathsStay, SameBelow, SeatsStay;
      ghost var t0, lv0 := Image(), lv;
      NodeShape(n, L);
      FitsRange(n, e, fence);
      fence' := TakeBack(x, L, i, n, fence, m);
      ghost var t1, lv1 := Image(), lv;
      PathKept(t0, lv0, t1, lv1, e.key, L);
      r := SplitIntoInter(n, fence');
      HalfRange(t1, lv1, L, i, n, fence', r, e);
      hide Denotes, NodeIs;
      y := MakeSibling(x, L, i, n, fence', r, 7, m);
      HalvesFitNow(n, nodes[x], r, fence, fence', e, p);
      Trans(t0, lv0, t1, lv1, Image(), lv, L);
      PathKept(t1, lv1, Image(), lv, r.low, L + 1);
    }

    /** Adds the child to the half of a split node it belongs to. */
    method AdoptHalf(x: nat, y: nat, ghost L: nat, ghost i: nat, l: Node, ghost fence: Option<nat>, r: Node, p: nat,
          e: Slot, ghost m: map<nat, nat>)
      requires Valid(m) && L > 0 && NodeIs(Image(), lv, L, i, l, Some(r.low))
        && NodeIs(Image(), lv, L, i + 1, r, fence) && x == lv[L][i] && y == lv[L][i + 1]
      requires HalvesFit(l, r, fence, e, p) && ChildBelow(Image(), lv, L, e)
      modifies `nodes, `log
      ensures Valid(m) && Kept(old(log), m)
      ensures SameBelow(old(Image()), lv, Image(), lv, L) && PathsStay(old(Image()), lv, Image(), lv, 0)
      ensures Adopted(Image(), lv, L, i, x, y, l.low, r.low, e.key) && SameLows(old(nodes), nodes, lv[L])
      ensures SeatsStay(old(Image()), lv, Image(), lv, 0, None)
    {
      hide Trace, TreeOk, RowOk, LevelOk, ParentsOk, PathClean, Lookup, Rank, CleanAt, HasChild, NodeAt, Fits, Denotes,
           PathsStay, SameBelow, Listed, NodeOk, SeatsStay;
      if e.key < r.low {
        Adopt(x, L, i, l, Some(r.low), p, e, m);
      } else {
        var q, found := KeyLowerBoundBy(r, e.key);
        Adopt(y, L, i + 1, r, fence, q, e, m);
      }
    }

    /** inter_insert: adds a child to inner node x, splitting it and its ancestors as needed. */
    method InterInsert(x: nat, L: nat, ghost i: nat, n: Node, ghost fence: Option<nat>, p: nat, e: Slot,
          ghost m: map<nat, nat>)
      requires Valid(m) && L > 0 && NodeIs(Image(), lv, L, i, n, fence) && x == lv[L][i] && NodeAt(n, L)
      requires Fits(n, e, fence) && p == Rank(Listed(n), e.key)
      requires In(nodes, lv[L - 1]) && HasChild(View(nodes, lv[L - 1]), lv[L - 1], e.value, e.key)
        && PathClean(Image(), lv, e.key, L)
      modifies this
      ensures Valid(m) && Kept(old(log), m)
      ensures SameBelow(old(Image()), old(lv), Image(), lv, L) && PathsStay(old(Image()), old(lv), Image(), lv, L)
      ensures Parented(Image(), lv, L, e.key)
      ensures FullBut(old(Image()), old(lv), L - 1, Some(e.key)) ==> Balanced()
      decreases |lv| - L, 0
    {
      hide Trace, TreeOk, RowOk, LevelOk, ParentsOk, PathClean, Lookup, Rank, CleanAt, HasChild, NodeAt, Fits, Denotes,
           PathsStay, SameBelow, Parented, Listed, NodeOk, FullBut, Full, SeatsStay;
      ghost var t0, lv0 := Image(), lv;
      NodeShape(n, L);
      if n.perm.size < WIDTH {
        Adopt(x, L, i, n, fence, p, e, m);
        TreeOf(Image(), lv, m);
        ParentedHere(t0, Image(), lv, L, i, n, fence, e);
        PathsLess(t0, lv, Image(), lv, L);
        if FullBut(t0, lv, L - 1, Some(e.key)) { AdoptFull(t0, lv, Image(), L, e.key); }
      } else {
        var y, r := SplitInner(x, L, i, n, fence, p, e, m);
        ghost var t1, lv1 := Image(), lv;
        TreeOf(t1, lv1, m);
        RootIs(t1, lv1);
        if root == x {
          SiblingOfRoot(t1, lv1, L, i);
          RaiseRoot(x, y, m);
          AfterMore(t0, lv0, t1, lv1, Image(), lv, L, e.key, |lv1|);
        } else {
          ChildHere(t1, lv1, L, i + 1);
          if FullBut(t1, lv1, L, Some(r.low)) { FullNotRoot(t1, lv1, L, i, r.low); }
          Split(r.low, y, L + 1, m);
          AfterMore(t0, lv0, t1, lv1, Image(), lv, L, e.key, L + 1);
        }
      }
    }

    /** split: makes `right`, whose fence is key, a child at level L. */
    method Split(key: nat, right: nat, L: nat, ghost m: map<nat, nat>)
      requires Valid(m) && 0 < L <= |lv| && PathClean(Image(), lv, key, L)
      requires In(nodes, lv[L - 1]) && HasChild(View(nodes, lv[L - 1]), lv[L - 1], right, key)
      modifies this
      ensures Valid(m) && Kept(old(log), m)
      ensures SameBelow(old(Image()), old(lv), Image(), lv, L) && PathsStay(old(Image()), old(lv), Image(), lv, L)
      ensures L < |old(lv)| ==> Parented(Image(), lv, L, key)
      ensures L < |old(lv)| && Parented(old(Image()), old(lv), L, key) ==>
        Image() == old(Image()) && lv == old(lv) && log == old(log)
      ensures L < |old(lv)| && FullBut(old(Image()), old(lv), L - 1, Some(key)) ==> Balanced()
      decreases |lv| - L, 1
    {
      hide Trace, TreeOk, RowOk, LevelOk, ParentsOk, Lookup, Rank, CleanAt, HasChild, NodeAt, FullBut, Full;
      RootIs(Image(), lv);
      BelowNext(Image(), lv, L);
      if L > nodes[root].level { return; }
      var x, i := FindNode(key, L, m);
      LevelFacts(Image(), lv, L);
      var n := nodes[x];
      NodeAtLevel(View(nodes, lv[L]), L, i);
      NodeShape(n, L);
      RowStarts(View(nodes, lv[L]), L);
      assert CleanOn(Image(), lv[L], key);
      var p, found := KeyLowerBoundBy(n, key);
      if found || key == n.low {
        if FullBut(Image(), lv, L - 1, Some(key)) { ParentedFull(Image(), lv, L, key); }
        return;
      }
      InterInsert(x, L, i, n, FenceOf(View(nodes, lv[L]), i), p, Slot(key, right), m);
    }

    /** The loop of check_for_recovery: drops from the permutation what the sibling has taken over. */
    static method CutPerm(n: Node, x: nat) returns (perm: Perm)
      requires NodeOk(n)
      ensures PermOk(perm) && Listed(n.(perm := perm)) == Front(Listed(n), x)
      ensures perm.size == n.perm.size ==> Under(n, Some(x))
      ensures Under(n, Some(x)) ==> perm == n.perm
    {
      hide Trace, Rank, Under, Listed, Ascending, NoDup, RemoveToBack;
      perm := n.perm;
      var j := n.perm.size;
      UnderMeans(n, x);
      RankSplits(Listed(n), x);
      while j > 0
        invariant j == perm.size <= n.perm.size && PermOk(perm) && Rank(Listed(n), x) <= j
        invariant perm.slots[..j] == n.perm.slots[..j]
        invariant j == n.perm.size ==> perm == n.perm
      {
        CutLast(n, perm);
        if SlotAt(n.(perm := perm), j - 1).key < x { break; }
        perm := RemoveToBack(perm, j - 1);
        j := j - 1;
      }
      CutListed(n, perm, x);
    }

    /** check_for_recovery: finishes the split between neighbours x and y, wherever it stopped. */
    method CheckForRecovery(x: nat, y: nat, L: nat, ghost i: nat, ghost m: map<nat, nat>)
      requires Valid(m) && L < |lv| && i + 1 < |lv[L]| && In(nodes, lv[L]) && x == lv[L][i] && y == lv[L][i + 1]
      requires CleanAt(View(nodes, lv[L]), i) && PathClean(Image(), lv, nodes[y].low, L + 1) && (L + 1 < |lv| || i == 0)
      modifies this
      ensures Valid(m) && Kept(old(log), m)
      ensures SameBelow(old(Image()), old(lv), Image(), lv, L) && PathsStay(old(Image()), old(lv), Image(), lv, L)
      ensures L + 1 < |lv| && lv[L] == old(lv)[L] && In(nodes, lv[L])
      ensures forall j: nat :: j < |lv[L]| ==> nodes[lv[L][j]].low == old(nodes)[lv[L][j]].low
      // the split is finished: the left node is cut and the right one has a parent
      ensures CleanAt(View(nodes, lv[L]), i + 1) && Parented(Image(), lv, L + 1, nodes[y].low)
      // and finishing a finished split does nothing
      ensures old(L + 1 < |lv| && CleanAt(View(nodes, lv[L]), i + 1) && Parented(Image(), lv, L + 1, nodes[y].low)) ==>
                Image() == old(Image()) && lv == old(lv) && log == old(log)
      ensures old(Clean()) ==> Clean()
      // in particular, nothing is left to finish in a tree where every node is a child
      ensures old(Balanced()) ==> Image() == old(Image()) && lv == old(lv) && log == old(log)
    {
      hide Trace, TreeOk, RowOk, LevelOk, ParentsOk, PathClean, Lookup, Rank, HasChild, NodeAt, PathsStay, SameBelow,
           Parented, Listed, NodeOk, Denotes, Under, LevelClean, FullBut;
      ghost var t0, lv0 := Image(), lv;
      if Full(t0, lv0) { FullDone(t0, lv0, m, 0, None, L, i); }
      CutBack(x, y, L, i, m);
      ghost var t1 := Image();
      CleanCut(t0, lv0, t1, L, i);
      TreeOf(t1, lv, m);
      RootIs(t1, lv);
      if root == x {
        SiblingOfRoot(t1, lv, L, i);
        RaiseRoot(x, y, m);
        SameLevel(t0, lv0, t1, Image(), lv, L, |lv0|);
        CleanBelow(t1, lv0, Image(), lv, |lv0|);
      } else {
        NotRoot(t1, lv, L, i);
        ChildHere(t1, lv, L, i + 1);
        PathKept(t0, lv0, t1, lv0, nodes[y].low, L + 1);
        Split(nodes[y].low, y, L + 1, m);
        ParentedLevel(Image(), lv, L + 1, t1.nodes[y].low);
        SameLevel(t0, lv0, t1, Image(), lv, L, L + 1);
        CleanBelow(t1, lv0, Image(), lv, L + 1);
      }
    }

    method CutBack(x: nat, y: nat, ghost L: nat, ghost i: nat, ghost m: map<nat, nat>)
      requires Valid(m) && L < |lv| && i + 1 < |lv[L]| && In(nodes, lv[L]) && x == lv[L][i] && y == lv[L][i + 1]
        && CleanAt(View(nodes, lv[L]), i)
      modifies `nodes, `log
      ensures Valid(m) && Kept(old(log), m) && In(nodes, lv[L]) && CleanAt(View(nodes, lv[L]), i + 1)
      ensures forall j: nat :: j < |lv[L]| ==> nodes[lv[L][j]].low == old(nodes)[lv[L][j]].low
      ensures SameBelow(old(Image()), lv, Image(), lv, L) && PathsStay(old(Image()), lv, Image(), lv, 0)
      ensures old(CleanAt(View(nodes, lv[L]), i + 1)) ==> nodes == old(nodes) && log == old(log)
    {
      hide Trace, TreeOk, Denotes, Listed, CleanAt, Under, NodeOk, Front, SameBelow, PathsStay;
      var n, low := nodes[x], nodes[y].low;
      TreeOf(Image(), lv, m);
      NodeHere(Image(), lv, L, i);
      CleanMeans(View(nodes, lv[L]), i);
      Unchanged(Image(), lv, L);
      NeverMoved(Image(), lv);
      var perm := CutPerm(n, low);
      if perm.size != n.perm.size {
        Cut(Image(), lv, m, L, i, perm);
        StorePerm(x, perm, m);
      }
    }

    // ---- put ----

    /** One hop to the right on the way to the key, finishing the split in between. */
    method HopRight(x: nat, y: nat, ghost K: nat, ghost i: nat, ghost key: nat, ghost m: map<nat, nat>)
      requires Valid(m) && K < |lv| && In(nodes, lv[K]) && i + 1 < |lv[K]| && x == lv[K][i] && y == lv[K][i + 1]
      requires nodes[y].low <= key && nodes[x].level == K && CleanAt(View(nodes, lv[K]), i)
        && (K + 1 < |lv| || i == 0)
      requires PathsAbove(Image(), lv, nodes[x].low, key, K + 1)
      modifies this
      ensures Valid(m) && Kept(old(log), m) && K + 1 < |lv| && In(nodes, lv[K]) && lv[K] == old(lv)[K]
      ensures nodes[y].low <= key && nodes[y].level == K && CleanAt(View(nodes, lv[K]), i + 1)
      ensures PathsAbove(Image(), lv, nodes[y].low, key, K + 1) && (old(Clean()) ==> Clean())
      ensures old(Balanced()) ==> Image() == old(Image()) && lv == old(lv) && log == old(log)
    {
      hide Trace, TreeOk, RowOk, LevelOk, ParentsOk, PathClean, Lookup, CleanAt, PathsStay, SameBelow, Parented,
           Denotes, Cover, PathsAbove, Means, Listed, LevelClean, Full;
      ghost var t0, lv0 := Image(), lv;
      TreeOf(t0, lv0, m);
      LevelFacts(t0, lv0, K);
      FencesAscend(View(nodes, lv[K]), K, i, i + 1);
      PathsAt(t0, lv0, nodes[x].low, key, nodes[y].low, K + 1);
      CheckForRecovery(x, y, nodes[x].level, i, m);
      PathsAboveKept(t0, lv0, Image(), lv, t0.nodes[x].low, nodes[y].low, key, K);
      TreeOf(Image(), lv, m);
      LevelFacts(Image(), lv, K);
    }

    /** The leaf for the key, finishing every split met on the way. */
    method FindLeaf(key: nat, ghost m: map<nat, nat>) returns (x: nat, ghost i: nat)
      requires Valid(m)
      modifies this
      ensures Valid(m) && Kept(old(log), m)
      ensures |lv| > 0 && i < |lv[0]| && In(nodes, lv[0]) && x == lv[0][i] && i == Cover(View(nodes, lv[0]), key, 0)
      ensures PathClean(Image(), lv, key, 0) && (old(Clean()) ==> Clean())
      ensures old(Balanced()) ==> Image() == old(Image()) && lv == old(lv) && log == old(log)
    {
      hide Trace, TreeOk, RowOk, LevelOk, ParentsOk, PathClean, Lookup, CleanAt, PathsStay, SameBelow, Parented,
           Denotes, Cover, PathsAbove, Means, Listed, LevelClean, Full;
      x := root;
      TreeOf(Image(), lv, m);
      RootIs(Image(), lv);
      ghost var K: nat := |lv| - 1;
      i := 0;
      FirstClean(View(nodes, lv[K]));
      NothingAbove(Image(), lv);
      while true
        invariant Valid(m) && Kept(old(log), m) && K < |lv| && In(nodes, lv[K]) && i < |lv[K]| && x == lv[K][i]
        invariant nodes[x].low <= key && nodes[x].level == K && CleanAt(View(nodes, lv[K]), i)
          && (K + 1 < |lv| || i == 0)
        invariant PathsAbove(Image(), lv, nodes[x].low, key, K + 1) && (old(Clean()) ==> Clean())
        invariant old(Balanced()) ==> Image() == old(Image()) && lv == old(lv) && log == old(log)
        decreases K, |lv[K]| - i
      {
        var y := AdvanceToKey(x, key, m, K, i);
        if y != x {
          HopRight(x, y, K, i, key, m);
          x, i := y, i + 1;
        } else {
          TreeOf(Image(), lv, m);
          PathsHere(Image(), lv, K, i, key);
          if nodes[x].level == 0 {
            LevelCover(Image(), lv, 0, i, key);
            PathsAt(Image(), lv, nodes[x].low, key, key, 0);
            return;
          }
          var c, j := ChildForKey(x, key, m, K, i);
          PathsNarrow(Image(), lv, nodes[x].low, nodes[c].low, key, K);
          x, i, K := c, j, K - 1;
        }
      }
    }

    /** Since `was`, every persisted state but the last stands for m, and the last, the present one, for m'. */
    ghost predicate Committed(was: seq<Tree>, m: map<nat, nat>, m': map<nat, nat>)
      reads this
    {
      && was <= log && |was| < |log| && log[|log| - 1] == Image() && Means(Image(), m')
      && forall i :: |was| <= i < |log| - 1 ==> Means(log[i], m)
    }

    /** The store that makes the filled slot at the back visible at position p. */
    method PublishSlot(x: nat, ghost i: nat, n: Node, ghost fence: Option<nat>, p: nat, e: Slot, ghost m: map<nat, nat>)
      requires Valid(m) && NodeIs(Image(), lv, 0, i, n, fence) && x == lv[0][i] && NodeOk(n) && n.perm.size < WIDTH
        && SlotAt(n, WIDTH - 1) == e
      requires Fits(n, e, fence) && p == Rank(Listed(n), e.key)
      modifies `nodes, `log
      ensures Valid(m[e.key := e.value]) && log == old(log) + [Image()] && Means(Image(), m[e.key := e.value])
      ensures (old(Clean()) ==> Clean()) && (old(Balanced()) ==> Balanced())
    {
      hide Trace, TreeOk, RowOk, LevelOk, ParentsOk, Lookup, Rank, CleanAt, PathClean, LevelClean, Keeps, Full;
      var n' := n.(perm := InsertFromBack(n.perm, p));
      Publish(n, p);
      PublishStep(Image(), lv, m, i, n, fence, n', e);
      TreeOf(Image(), lv, m);
      NodeFacts(Image(), lv, 0, i, n, fence);
      KeepsInserted(n, n', e, fence, 0);
      CleanSet(Image(), lv, 0, i, n, fence, n');
      LeafFull(Image(), lv, i, n, fence, n');
      hide Denotes, Listed;
      StorePerm(x, n'.perm, m[e.key := e.value]);
    }

    /** Fills a free slot and makes it visible. */
    method PublishPair(x: nat, ghost i: nat, n: Node, ghost fence: Option<nat>, p: nat, e: Slot, ghost m: map<nat, nat>)
      requires Valid(m) && NodeIs(Image(), lv, 0, i, n, fence) && x == lv[0][i] && NodeOk(n) && n.perm.size < WIDTH
      requires Fits(n, e, fence) && p == Rank(Listed(n), e.key)
      modifies `nodes, `log
      ensures Valid(m[e.key := e.value]) && Committed(old(log), m, m[e.key := e.value])
      ensures (old(Clean()) ==> Clean()) && (old(Balanced()) ==> Balanced())
    {
      hide Trace, TreeOk, RowOk, LevelOk, ParentsOk, PathClean, NodeAt, Keeps, Lookup, Rank, CleanAt, LevelClean, Full;
      var n1 := n.(entry := n.entry[Back(n.perm) := e]);
      AssignFree(n, e);
      TreeOf(Image(), lv, m);
      NodeFacts(Image(), lv, 0, i, n, fence);
      KeepsSame(n, n1, fence, 0);
      AssignStep(Image(), lv, m, 0, i, n, fence, n1);
      PlaceSet(Image(), lv, 0, i, n, fence, n1);
      CleanSet(Image(), lv, 0, i, n, fence, n1);
      LeafFull(Image(), lv, i, n, fence, n1);
      hide Denotes;
      StoreSlot(x, Back(n.perm), e, m);
      PublishSlot(x, i, n1, fence, p, e, m);
    }

    /** leaf_insert: puts a new key into leaf x, splitting it if it is full. */
    method LeafInsert(x: nat, ghost i: nat, n: Node, ghost fence: Option<nat>, p: nat, e: Slot, ghost m: map<nat, nat>)
      requires Valid(m) && NodeIs(Image(), lv, 0, i, n, fence) && x == lv[0][i] && NodeAt(n, 0)
        && PathClean(Image(), lv, e.key, 0)
      requires Fits(n, e, fence) && p == Rank(Listed(n), e.key)
      modifies this
      ensures Valid(m[e.key := e.value]) && Committed(old(log), m, m[e.key := e.value])
      ensures (old(Clean()) ==> Clean()) && (old(Balanced()) ==> Balanced())
    {
      hide Trace, TreeOk, RowOk, LevelOk, ParentsOk, PathClean, Lookup, Rank, CleanAt, NodeAt, Fits, Denotes, PathsStay,
           SameBelow, Parented, Listed, NodeOk, TakesOver, Under, LevelClean, FullBut, Full;
      NodeShape(n, 0);
      if n.perm.size < WIDTH {
        PublishPair(x, i, n, fence, p, e, m);
      } else {
        var y, r, fence' := HalveLeaf(x, i, n, fence, p, e, m);
        TellParent(x, y, i, nodes[x], r, fence', m);
        if p < 8 {
          PublishPair(x, i, nodes[x], Some(r.low), p, e, m);
        } else {
          PublishSlot(y, i + 1, r, fence', p - 8, e, m);
        }
      }
    }

    /** The sibling split off a leaf gets a parent: a new root, or the parent of the leaf. */
    method TellParent(x: nat, y: nat, ghost i: nat, l: Node, r: Node, ghost fence: Option<nat>, ghost m: map<nat, nat>)
      requires Valid(m) && |lv| > 0 && i + 1 < |lv[0]| && lv[0][i] == x && lv[0][i + 1] == y
      requires NodeIs(Image(), lv, 0, i, l, Some(r.low)) && NodeIs(Image(), lv, 0, i + 1, r, fence)
        && PathClean(Image(), lv, r.low, 1)
      modifies this
      ensures Valid(m) && Kept(old(log), m) && |lv| > 0 && i + 1 < |lv[0]| && lv[0][i] == x && lv[0][i + 1] == y
      ensures NodeIs(Image(), lv, 0, i, l, Some(r.low)) && NodeIs(Image(), lv, 0, i + 1, r, fence)
      ensures x in nodes && nodes[x] == l && (old(Clean()) ==> Clean())
      ensures FullBut(old(Image()), old(lv), 0, Some(r.low)) ==> Balanced()
    {
      hide Trace, TreeOk, RowOk, LevelOk, ParentsOk, PathClean, Lookup, CleanAt, NodeAt, Denotes, PathsStay, SameBelow,
           Parented, Listed, NodeOk, Under, LevelClean, FullBut, Full;
      ghost var t1, lv1 := Image(), lv;
      TreeOf(t1, lv1, m);
      RootIs(t1, lv1);
      if root == x {
        SiblingOfRoot(t1, lv1, 0, i);
        RaiseRoot(x, y, m);
        PlaceBelow(t1, lv1, Image(), lv, |lv1|, i, l, Some(r.low));
        PlaceBelow(t1, lv1, Image(), lv, |lv1|, i + 1, r, fence);
        CleanBelow(t1, lv1, Image(), lv, |lv1|);
      } else {
        ChildHere(t1, lv1, 0, i + 1);
        if FullBut(t1, lv1, 0, Some(r.low)) { FullNotRoot(t1, lv1, 0, i, r.low); }
        Split(r.low, y, 1, m);
        PlaceBelow(t1, lv1, Image(), lv, 1, i, l, Some(r.low));
        PlaceBelow(t1, lv1, Image(), lv, 1, i + 1, r, fence);
        CleanBelow(t1, lv1, Image(), lv, 1);
      }
    }

    /** Takes back, links and cuts a full leaf. */
    method HalveLeaf(x: nat, ghost i: nat, n: Node, ghost fence: Option<nat>, p: nat, e: Slot, ghost m: map<nat, nat>)
      returns (y: nat, r: Node, ghost fence': Option<nat>)
      requires Valid(m) && NodeIs(Image(), lv, 0, i, n, fence) && x == lv[0][i] && NodeAt(n, 0) && n.perm.size == WIDTH
      requires Fits(n, e, fence) && p == Rank(Listed(n), e.key) && PathClean(Image(), lv, e.key, 0)
      modifies `nodes, `next, `brk, `lv, `log
      ensures Valid(m) && Kept(old(log), m) && |lv| == |old(lv)| > 0 && i + 1 < |lv[0]| && lv[0][i] == x
        && lv[0][i + 1] == y
      ensures x in nodes && LeafHalvesFit(nodes[x], r, fence', e, p) && PathClean(Image(), lv, r.low, 1)
      ensures NodeIs(Image(), lv, 0, i, nodes[x], Some(r.low)) && NodeIs(Image(), lv, 0, i + 1, r, fence')
      ensures old(Clean()) ==> Clean()
      ensures old(Balanced()) ==> FullBut(Image(), lv, 0, Some(r.low))
    {
      hide Trace, LevelClean, TreeOk, PathClean, NodeIs, NodeOk, NodeAt, TakesOver, Under, PathsStay, SameBelow, Fits,
           LeafHalvesFit, Denotes, Listed, Rank, FullBut, SeatsStay, CleanAt;
      ghost var t0, lv0 := Image(), lv;
      NodeShape(n, 0);
      FitsRange(n, e, fence);
      FullClean(t0, lv0, m, 0, None, 0, i, n, fence);
      fence' := TakeBack(x, 0, i, n, fence, m);
      ghost var t1, lv1 := Image(), lv;
      PathKept(t0, lv0, t1, lv1, e.key, 0);
      FitsWider(n, e, fence, fence');
      r := SplitInto(n, p, e.key, e.value, fence');
      TreeOf(t1, lv1, m);
      HalfRange(t1, lv1, 0, i, n, fence', r, e);
      y := MakeSibling(x, 0, i, n, fence', r, WIDTH - r.perm.size, m);
      LeafHalvesFitNow(n, nodes[x], r, fence, fence', e, p);
      PathKept(t1, lv1, Image(), lv, r.low, 1);
      if Full(t0, lv0) { FullHalved(t0, lv0, Image(), lv, r.low); }
    }

    /** put: binds the key, and every state persisted before the last store stands for the old map. */
    method Put(key: nat, value: nat, ghost m: map<nat, nat>)
      requires Valid(m) && value != 0
      modifies this
      ensures Valid(m[key := value]) && Committed(old(log), m, m[key := value])
      // splits are finished: no leaf lists what its sibling has, and every node but the root is a child
      ensures (old(Clean()) ==> Clean()) && (old(Balanced()) ==> Balanced())
    {
      hide Trace, TreeOk, RowOk, LevelOk, ParentsOk, PathClean, Lookup, Rank, NodeAt, Denotes, LevelClean, Keeps, Full;
      var x, i := FindLeaf(key, m);
      TreeOf(Image(), lv, m);
      ghost var fence := FenceOf(View(nodes, lv[0]), i);
      PathPlace(Image(), lv, i, key);
      var n := nodes[x];
      NodeFacts(Image(), lv, 0, i, n, fence);
      NodeShape(n, 0);
      var p, found := KeyLowerBoundBy(n, key);
      if found {
        AssignValue(n, p, value);
        var n' := n.(entry := n.entry[n.perm.slots[p] := Slot(SlotAt(n, p).key, value)]);
        ValueStep(Image(), lv, m, i, n, fence, n', p, value);
        KeepsValue(n, n', p, value, fence, 0);
        CleanSet(Image(), lv, 0, i, n, fence, n');
        LeafFull(Image(), lv, i, n, fence, n');
        StoreSlot(x, n.perm.slots[p], Slot(SlotAt(n, p).key, value), m[key := value]);
      } else {
        LeafInsert(x, i, n, fence, p, Slot(key, value), m);
      }
    }

    /** The in-place removal of leaf_delete. */
    method RemoveKey(key: nat, ghost m: map<nat, nat>) returns (done: bool)
      requires Valid(m)
      modifies this
      ensures key !in m ==> !done
      ensures done ==> Valid(m - {key}) && Committed(old(log), m, m - {key})
      ensures !done ==> Valid(m) && Kept(old(log), m)
      // a key is left only where it is the last one of its leaf
      ensures !done && key in m ==> exists x :: x in nodes && LoneEntry(nodes[x], Slot(key, m[key]))
      ensures (old(Clean()) ==> Clean()) && (old(Balanced()) ==> Balanced())
    {
      hide Trace, TreeOk, RowOk, LevelOk, ParentsOk, PathClean, Lookup, Rank, NodeAt, Denotes, LevelClean, Keeps, Full;
      var x, i := FindLeaf(key, m);
      TreeOf(Image(), lv, m);
      ghost var fence := FenceOf(View(nodes, lv[0]), i);
      PathPlace(Image(), lv, i, key);
      var n := nodes[x];
      NodeFacts(Image(), lv, 0, i, n, fence);
      NodeShape(n, 0);
      var p, found := KeyLowerBoundBy(n, key);
      LeafLookup(Image(), lv, m, i, n, fence, key);
      if !found || n.perm.size <= 1 {
        if found { OneListed(n, p, key); }
        return false;
      }
      Remove(n, p);
      var n' := n.(perm := RemoveToBack(n.perm, p));
      RemoveStep(Image(), lv, m, i, n, fence, n', p);
      KeepsWithout(n, n', p, fence, 0);
      CleanSet(Image(), lv, 0, i, n, fence, n');
      LeafFull(Image(), lv, i, n, fence, n');
      StorePerm(x, n'.perm, m - {key});
      return true;
    }

    // ---- scan ----

    /** The leaf a scan starts in: the descent stops at the child pointer, without a last hop. */
    method ScanStart(min: nat, ghost m: map<nat, nat>) returns (l: nat, ghost j: nat)
      requires Valid(m)
      ensures |lv| > 0 && In(nodes, lv[0]) && j < |lv[0]| && l == lv[0][j] && nodes[l].low <= min
    {
      hide Trace, TreeOk, Lookup, Cover, RowOk, LevelOk, ParentsOk, CleanAt;
      RootIs(Image(), lv);
      if nodes[root].level == 0 { return root, 0; }
      var x, i := FindNode(min, 1, m);
      LevelFacts(Image(), lv, 1);
      RowStarts(View(nodes, lv[1]), 1);
      l, j := ChildForKey(x, min, m, 1, i);
    }

    /** Appends the entries of one leaf from min on, up to num in all. */
    static method ScanLeaf(n: Node, min: nat, num: nat, buf0: seq<nat>, ghost out0: seq<Slot>, ghost before: seq<Slot>)
      returns (buf: seq<nat>, ghost out: seq<Slot>, ghost i: nat)
      requires NodeOk(n) && |buf0| == |out0| <= num && (forall i :: 0 <= i < |buf0| ==> buf0[i] == out0[i].value)
        && out0 == From(before, min)
      ensures |buf| == |out| <= num && (forall i :: 0 <= i < |buf| ==> buf[i] == out[i].value)
      ensures i <= |Listed(n)| && (i == |Listed(n)| || |buf| == num) && out == From(before + Listed(n)[..i], min)
    {
      hide Trace, From;
      var j := 0;
      buf, out, i := buf0, out0, 0;
      assert before + Listed(n)[..0] == before;
      while j < n.perm.size && |buf| < num
        invariant i == j <= n.perm.size && |buf| == |out| <= num
        invariant forall i :: 0 <= i < |buf| ==> buf[i] == out[i].value
        invariant out == From(before + Listed(n)[..i], min)
      {
        ScanNext(before, Listed(n), i, min);
        var e := SlotAt(n, j);
        if e.key >= min { buf, out := buf + [e.value], out + [e]; }
        j, i := j + 1, i + 1;
      }
    }

    /** scan: the values of the num smallest keys from min on, in key order, when no leaf split is half done. */
    method Scan(min: nat, num: nat, ghost m: map<nat, nat>) returns (buf: seq<nat>)
      requires Valid(m) && Clean()
      ensures ScanGives(buf, m, min, num)
    {
      hide Trace, TreeOk, Denotes, RowOk, AllClean, Flat, From, NodeOk, IsScan;
      var l, j := ScanStart(min, m);
      ghost var ns, a := View(nodes, lv[0]), j;
      TreeOf(Image(), lv, m);
      buf := [];
      ghost var out: seq<Slot> := [];
      NothingYet(ns, a, min);
      while |buf| < num
        invariant a <= j < |ns| && l == lv[0][j] && |buf| == |out| <= num
        invariant forall i :: 0 <= i < |buf| ==> buf[i] == out[i].value
        invariant out <= From(Flat(ns, a, |ns|), min) && (|out| == num || out == From(Flat(ns, a, j), min))
        decreases |ns| - j
      {
        NodeHere(Image(), lv, 0, j);
        NextAt(Image(), lv, 0, j);
        ghost var i;
        buf, out, i := ScanLeaf(nodes[l], min, num, buf, out, Flat(ns, a, j));
        ScanPrefix(ns, a, j, i, min);
        var nx := next[l];
        if nx.None? { break; }
        l, j := nx.value, j + 1;
      }
      ScanDone(Image(), lv, m, min, num, a, out);
    }
  }

  // ---- any sequence of puts ----

  /** The map after the puts ps, in order. */
  ghost function Puts(ps: seq<Slot>): map<nat, nat> {
    if ps == [] then map[] else Puts(ps[..|ps| - 1])[ps[|ps| - 1].key := ps[|ps| - 1].value]
  }

  /** After any puts into a new tree, get finds the last value put, and scan the num smallest keys from min on. */
  method PutsThenRead(ps: seq<Slot>, key: nat, min: nat, num: nat) returns (r: Option<nat>, buf: seq<nat>)
    requires forall i :: 0 <= i < |ps| ==> ps[i].value != 0
    ensures r == MapAt(Puts(ps), key) && ScanGives(buf, Puts(ps), min, num)
  {
    hide TreeOk, Denotes, LevelClean, IsScan;
    var t := new Masstree();
    var i := 0;
    while i < |ps|
      invariant i <= |ps| && t.Valid(Puts(ps[..i])) && t.Clean() && fresh(t)
    {
      assert ps[..i + 1][..i] == ps[..i];
      t.Put(ps[i].key, ps[i].value, Puts(ps[..i]));
      i := i + 1;
    }
    assert ps[..i] == ps;
    r := t.Get(key, Puts(ps));
    buf := t.Scan(min, num, Puts(ps));
  }

  // ---- parents ----

  lemma AdoptSeats(t: Tree, lv: seq<seq<nat>>, L: nat, i: nat, n: Node, fence: Option<nat>, n': Node, p: nat, e: Slot,
        m: map<nat, nat>)
    requires Denotes(t, lv, m) && NodeIs(t, lv, L, i, n, fence) && n'.low == n.low
      && p <= |Listed(n)| && Listed(n') == Inserted(Listed(n), p, e)
    ensures SeatsStay(t, lv, SetNode(t, lv[L][i], n'), lv, 0, None)
  {
    hide TreeOk, CleanAt, Lists, SeatsStay, Lookup;
    forall k: nat | Lists(n, k) ensures Lists(n', k) { InsertedLists(n, n', p, e, k); }
    SetSeats(t, lv, L, i, n, fence, n');
  }

  lemma AdoptFull(t0: Tree, lv: seq<seq<nat>>, t: Tree, L: nat, k: nat)
    requires TreeOk(t, lv) && 0 < L < |lv| && FullBut(t0, lv, L - 1, Some(k)) && SeatsStay(t0, lv, t, lv, 0, None)
      && Parented(t, lv, L, k)
    ensures Full(t, lv)
  {
    hide TreeOk, FullBut, SeatsStay, Seated;
    ParentedSeat(t, lv, L, k);
    FullTrans(t0, lv, L - 1, Some(k), t, lv, 0, None);
  }

  lemma ParentedFull(t: Tree, lv: seq<seq<nat>>, L: nat, k: nat)
    requires TreeOk(t, lv) && 0 < L < |lv| && FullBut(t, lv, L - 1, Some(k)) && Parented(t, lv, L, k)
    ensures Full(t, lv)
  {
    hide TreeOk, FullBut, Seated;
    ParentedSeat(t, lv, L, k);
    FullOnce(t, lv, L - 1, k);
  }

  /** On a level where every node is seated the splits are finished. */
  lemma FullDone(t: Tree, lv: seq<seq<nat>>, m: map<nat, nat>, M: nat, q: Option<nat>, L: nat, i: nat)
    requires Denotes(t, lv, m) && FullBut(t, lv, M, q) && (L == M ==> q.None?)
    requires L < |lv| && i + 1 < |lv[L]| && In(t.nodes, lv[L])
    ensures L + 1 < |lv| && CleanAt(View(t.nodes, lv[L]), i + 1) && Parented(t, lv, L + 1, t.nodes[lv[L][i + 1]].low)
  {
    hide TreeOk, Lookup, Seated;
    assert Seated(t, lv, L, t.nodes[lv[L][i + 1]].low);
    SeatedDone(t, lv, L, i);
  }

  lemma FullClean(t: Tree, lv: seq<seq<nat>>, m: map<nat, nat>, M: nat, q: Option<nat>, L: nat, i: nat, n: Node,
        fence: Option<nat>)
    requires Denotes(t, lv, m) && (L == M ==> q.None?) && NodeIs(t, lv, L, i, n, fence)
    ensures FullBut(t, lv, M, q) ==> In(t.nodes, lv[L]) && CleanAt(View(t.nodes, lv[L]), i + 1)
  {
    hide TreeOk, Lookup, FullBut, Parented;
    if FullBut(t, lv, M, q) && i + 1 < |lv[L]| { FullDone(t, lv, m, M, q, L, i); }
  }

  lemma FullHalved(t: Tree, lv: seq<seq<nat>>, t': Tree, lv': seq<seq<nat>>, q: nat)
    requires Full(t, lv) && SeatsStay(t, lv, t', lv', 0, Some(q))
    ensures FullBut(t', lv', 0, Some(q))
  {
    hide FullBut, SeatsStay, Seated;
    FullTrans(t, lv, 0, None, t', lv', 0, Some(q));
  }

  /** A node with an orphan to its right is the root, or there is a level above. */
  lemma FullNotRoot(t: Tree, lv: seq<seq<nat>>, L: nat, i: nat, q: nat)
    requires TreeOk(t, lv) && FullBut(t, lv, L, Some(q)) && L < |lv| && i + 1 < |lv[L]| && t.root != lv[L][i]
      && In(t.nodes, lv[L]) && t.nodes[lv[L][i + 1]].low == q
    ensures L + 1 < |lv|
  {
    hide TreeOk, RowOk;
    RootIs(t, lv);
    if L + 1 == |lv| {
      LevelFacts(t, lv, L);
      FencesAscend(View(t.nodes, lv[L]), L, 0, i);
      FencesAscend(View(t.nodes, lv[L]), L, i, i + 1);
    }
  }

  lemma SplitSeats(t0: Tree, lv0: seq<seq<nat>>, t1: Tree, lv: seq<seq<nat>>, t2: Tree, L: nat, low: nat, k: nat,
        m: map<nat, nat>)
    requires Denotes(t2, lv, m) && 0 < L < |lv| && Parented(t2, lv, L, k) && SeatsStay(t1, lv, t2, lv, 0, None)
    requires FullBut(t0, lv0, L - 1, Some(k)) ==> SeatsStay(t0, lv0, t1, lv, L, Some(low))
    ensures FullBut(t0, lv0, L - 1, Some(k)) ==> FullBut(t2, lv, L, Some(low))
  {
    hide TreeOk, Lookup, FullBut, SeatsStay, Seated, Parented;
    if FullBut(t0, lv0, L - 1, Some(k)) {
      SeatsTrans(t0, lv0, t1, lv, t2, lv, L, Some(low));
      ParentedSeat(t2, lv, L, k);
      FullTrans(t0, lv0, L - 1, Some(k), t2, lv, L, Some(low));
    }
  }

  lemma LeafFull(t: Tree, lv: seq<seq<nat>>, i: nat, n: Node, fence: Option<nat>, n': Node)
    requires TreeOk(t, lv) && NodeIs(t, lv, 0, i, n, fence) && n'.low == n.low
    ensures Full(t, lv) ==> Full(SetNode(t, lv[0][i], n'), lv)
  {
    hide TreeOk, CleanAt, SeatsStay, FullBut;
    SetSeats(t, lv, 0, i, n, fence, n');
    if Full(t, lv) { FullTrans(t, lv, 0, None, SetNode(t, lv[0][i], n'), lv, 0, None); }
  }

  lemma NextClean(t: Tree, lv: seq<seq<nat>>, L: nat, i: nat, n: Node, fence: Option<nat>)
    requires NodeIs(t, lv, L, i, n, fence)
    ensures CleanAt(View(t.nodes, lv[L]), i + 1) ==> Under(n, fence)
  {
  }

  // ---- half-done splits ----

  ghost predicate LoneEntry(n: Node, e: Slot) { n.level == 0 && Listed(n) == [e] }

  lemma OneListed(n: Node, p: nat, key: nat)
    requires NodeAt(n, 0) && n.perm.size <= 1 && p < |Listed(n)| && Listed(n)[p].key == key
    ensures FindIn(Listed(n), key).Some? ==> LoneEntry(n, Slot(key, FindIn(Listed(n), key).value))
  {
    FindIs(Listed(n), key, p);
  }

  lemma CleanUnder(t: Tree, lv: seq<seq<nat>>, L: nat, i: nat, n: Node, fence: Option<nat>)
    requires NodeIs(t, lv, L, i, n, fence)
    ensures LevelClean(t, lv, L) ==> Under(n, fence)
  {
    if LevelClean(t, lv, L) { assert CleanAt(View(t.nodes, lv[L]), i + 1); }
  }

  lemma CleanBelow(t: Tree, lv: seq<seq<nat>>, t': Tree, lv': seq<seq<nat>>, L: nat)
    requires SameBelow(t, lv, t', lv', L) && L > 0
    ensures LevelClean(t, lv, 0) ==> LevelClean(t', lv', 0)
  {
    hide CleanAt;
  }

  lemma CleanCut(t: Tree, lv: seq<seq<nat>>, t': Tree, L: nat, i: nat)
    requires L < |lv| && In(t.nodes, lv[L]) && SameBelow(t, lv, t', lv, L)
    requires CleanAt(View(t.nodes, lv[L]), i + 1) ==> t'.nodes == t.nodes
    ensures LevelClean(t, lv, 0) ==> LevelClean(t', lv, 0)
  {
    hide CleanAt;
    if L > 0 { CleanBelow(t, lv, t', lv, L); }
  }

  lemma CleanSet(t: Tree, lv: seq<seq<nat>>, L: nat, i: nat, n: Node, fence: Option<nat>, n': Node)
    requires TreeOk(t, lv) && NodeIs(t, lv, L, i, n, fence) && Keeps(n, n', fence)
    ensures LevelClean(t, lv, L) ==> LevelClean(SetNode(t, lv[L][i], n'), lv, L)
  {
    hide TreeOk, CleanAt, Keeps;
    PlaceSet(t, lv, L, i, n, fence, n');
  }

  lemma LinkAlmostClean(t0: Tree, t1: Tree, lv: seq<seq<nat>>, L: nat, i: nat, n: Node, fence: Option<nat>, x: nat)
    requires TreeOk(t1, lv) && NodeIs(t1, lv, L, i, n, fence) && Fresh(lv, x) && SameBelow(t0, lv, t1, lv, |lv|)
    requires x in t1.nodes && x in t1.next && t1.next[x] == Nth(lv[L], i + 1) && TakesOver(n, t1.nodes[x], fence)
    ensures LevelClean(t0, lv, L) ==>
              AlmostClean(SetNext(t1, lv[L][i], Some(x)), lv[L := Inserted(lv[L], i + 1, x)], L, i)
  {
    hide TreeOk, CleanAt, TakesOver, RowOk, LevelOk;
    if LevelClean(t0, lv, L) {
      var ns, r := View(t1.nodes, lv[L]), t1.nodes[x];
      Link(t1, lv, L, i, x);
      LevelFacts(t1, lv, L);
      var ns' := Inserted(ns, i + 1, r);
      forall j: nat | j != i + 1 ensures CleanAt(ns', j) {
        if j <= |ns| { LinkClean(ns, L, i, r, j); } else { CleanBeyond(ns', j); }
      }
    }
  }

  lemma CleanBeyond(ns: seq<Node>, j: nat)
    requires j >= |ns|
    ensures CleanAt(ns, j)
  {
  }

  lemma CutCleans(t: Tree, lv: seq<seq<nat>>, L: nat, i: nat, n: Node, x: nat, n': Node)
    requires TreeOk(t, lv) && NodeIs(t, lv, L, i, n, Some(x)) && Shaped(n') && Listed(n') == Front(Listed(n), x)
      && SamePlace(n, n')
    requires In(SetNode(t, lv[L][i], n').nodes, lv[L])
    requires CleanAt(View(SetNode(t, lv[L][i], n').nodes, lv[L]), i + 1)
    ensures AlmostClean(t, lv, L, i) ==> LevelClean(SetNode(t, lv[L][i], n'), lv, L)
  {
    hide TreeOk, CleanAt, Keeps, Front;
    NodeFacts(t, lv, L, i, n, Some(x));
    KeepsFront(n, n', x, L);
    PlaceSet(t, lv, L, i, n, Some(x), n');
  }

  lemma ScanDone(t: Tree, lv: seq<seq<nat>>, m: map<nat, nat>, min: nat, num: nat, j: nat, out: seq<Slot>)
    requires Denotes(t, lv, m) && |lv| > 0 && In(t.nodes, lv[0]) && AllClean(View(t.nodes, lv[0])) && j < |lv[0]|
      && t.nodes[lv[0][j]].low <= min
    requires
      var ns := View(t.nodes, lv[0]);
      var all := From(Flat(ns, j, |ns|), min);
      out <= all && |out| <= num && (out == all || |out| == num)
    ensures IsScan(out, m, min, num)
  {
    hide TreeOk, RowOk, AllClean, From, Flat, Lookup, IsScan;
    LevelFacts(t, lv, 0);
    ScanRight(View(t.nodes, lv[0]), m, min, num, j, out);
  }

  /** The sibling pointer of a node leads to its neighbour on the level. */
  lemma NextAt(t: Tree, lv: seq<seq<nat>>, L: nat, i: nat)
    requires TreeOk(t, lv) && L < |lv| && i < |lv[L]|
    ensures In(t.nodes, lv[L]) && lv[L][i] in t.next && (L > 0 ==> In(t.nodes, lv[L - 1]))
    ensures match t.next[lv[L][i]]
      case None => i + 1 == |lv[L]|
      case Some(y) => i + 1 < |lv[L]| && y == lv[L][i + 1] && y in t.next
  {
    hide TreeOk, CleanAt;
    LevelFacts(t, lv, L);
    NextKnown(t, lv[L], i);
    if i + 1 < |lv[L]| { NextKnown(t, lv[L], i + 1); }
    BelowNext(t, lv, L);
  }

  /** It leads to the node that carries its fence. */
  lemma NextOf(t: Tree, lv: seq<seq<nat>>, L: nat, i: nat, n: Node, fence: Option<nat>)
    requires TreeOk(t, lv) && NodeIs(t, lv, L, i, n, fence)
    ensures L < |lv| && i < |lv[L]| && lv[L][i] in t.next && (L > 0 ==> In(t.nodes, lv[L - 1]))
    ensures match t.next[lv[L][i]]
      case None => fence == None
      case Some(y) =>
        i + 1 < |lv[L]| && y == lv[L][i + 1] && y in t.nodes && y in t.next && fence == Some(t.nodes[y].low)
  {
    hide TreeOk, CleanAt;
    NextAt(t, lv, L, i);
  }

  lemma LastListed(n: Node)
    requires NodeOk(n) && n.perm.size > 0
    ensures |Listed(n)| == n.perm.size && Listed(n)[|Listed(n)| - 1] == SlotAt(n, n.perm.size - 1)
  {
  }

  lemma Unchanged(t: Tree, lv: seq<seq<nat>>, L: nat)
    requires TreeOk(t, lv) && L <= |lv|
    ensures SameBelow(t, lv, t, lv, L) && PathsStay(t, lv, t, lv, L)
  {
    hide TreeOk, PathClean;
    BelowNext(t, lv, L);
  }

  lemma NodeHere(t: Tree, lv: seq<seq<nat>>, L: nat, i: nat)
    requires TreeOk(t, lv) && L < |lv| && i < |lv[L]|
    ensures lv[L][i] in t.nodes && NodeOk(t.nodes[lv[L][i]]) && t.nodes[lv[L][i]].level == L
  {
    hide TreeOk;
    LevelFacts(t, lv, L);
    NodeAtLevel(View(t.nodes, lv[L]), L, i);
  }

  lemma CleanMeans(ns: seq<Node>, i: nat)
    requires i + 1 < |ns|
    ensures CleanAt(ns, i + 1) <==> Under(ns[i], Some(ns[i + 1].low))
  {
  }

  lemma NeverMoved(t: Tree, lv: seq<seq<nat>>)
    ensures PathsStay(t, lv, t, lv, 0)
  {
    hide PathClean;
  }

  /** Cutting a node back to the keys below its fence. */
  lemma Cut(t: Tree, lv: seq<seq<nat>>, m: map<nat, nat>, L: nat, i: nat, perm: Perm)
    requires Denotes(t, lv, m) && L < |lv| && i + 1 < |lv[L]| && In(t.nodes, lv[L]) && CleanAt(View(t.nodes, lv[L]), i)
    requires
      var n := t.nodes[lv[L][i]];
      NodeOk(n) && PermOk(perm) && Listed(n.(perm := perm)) == Front(Listed(n), t.nodes[lv[L][i + 1]].low)
    ensures var t' := SetNode(t, lv[L][i], t.nodes[lv[L][i]].(perm := perm));
      && Denotes(t', lv, m) && In(t'.nodes, lv[L]) && CleanAt(View(t'.nodes, lv[L]), i + 1)
      && SameBelow(t, lv, t', lv, L) && PathsStay(t, lv, t', lv, 0)
      && forall j: nat :: j < |lv[L]| ==> t'.nodes[lv[L][j]].low == t.nodes[lv[L][j]].low
  {
    hide TreeOk, PathClean, Lookup, CleanAt, Listed, Front;
    var n, low := t.nodes[lv[L][i]], t.nodes[lv[L][i + 1]].low;
    var n' := n.(perm := perm);
    assert FenceOf(View(t.nodes, lv[L]), i) == Some(low);
    CutStep(t, lv, m, L, i, n, low, n');
    BelowSet(t, lv, L, i, n');
  }

  /** Taking the linked sibling out again. */
  lemma Unlinked(t: Tree, lv: seq<seq<nat>>, m: map<nat, nat>, L: nat, i: nat, n: Node, x: nat)
        returns (fence': Option<nat>)
    requires Denotes(t, lv, m) && NodeIs(t, lv, L, i, n, Some(x)) && !Under(n, Some(x))
    ensures L < |lv| && i + 1 < |lv[L]| && lv[L][i + 1] in t.next
    ensures var t', lv' := SetNext(t, lv[L][i], t.next[lv[L][i + 1]]), lv[L := Without(lv[L], i + 1)];
      && Denotes(t', lv', m) && NodeIs(t', lv', L, i, n, fence') && i < |lv'[L]| && lv'[L][i] == lv[L][i]
      && SameBelow(t, lv, t', lv', L) && PathsStay(t, lv, t', lv', L)
    ensures Under(n, fence') && forall k: nat :: Below(k, Some(x)) ==> Below(k, fence')
  {
    hide TreeOk, PathClean, Lookup, CleanAt, Under;
    UnlinkStep(t, lv, m, L, i, n, x);
    BelowNext(t, lv, L);
    var t', lv' := SetNext(t, lv[L][i], t.next[lv[L][i + 1]]), lv[L := Without(lv[L], i + 1)];
    fence' :| NodeIs(t', lv', L, i, n, fence') && Under(n, fence') && Below(x, fence');
  }

  /** The new fence lies between the old ones, so the same nodes are above it. */
  lemma HalfRange(t: Tree, lv: seq<seq<nat>>, L: nat, i: nat, n: Node, fence: Option<nat>, r: Node, e: Slot)
    requires TreeOk(t, lv) && NodeIs(t, lv, L, i, n, fence) && TakesOver(n, r, fence) && n.low <= e.key
      && Below(e.key, fence) && PathClean(t, lv, e.key, L)
    ensures PathClean(t, lv, r.low, L + 1)
  {
    hide TreeOk, RowOk, LevelOk, ParentsOk, PathClean, CleanAt, Cover;
    LevelFacts(t, lv, L);
    RowStarts(View(t.nodes, lv[L]), L);
    CoverIs(View(t.nodes, lv[L]), L, e.key, 0, i);
    CoverIs(View(t.nodes, lv[L]), L, r.low, 0, i);
    PathUp(t, lv, e.key, L);
    PathRange(t, lv, L, e.key, r.low);
  }

  lemma Trans(t0: Tree, lv0: seq<seq<nat>>, t1: Tree, lv1: seq<seq<nat>>, t2: Tree, lv2: seq<seq<nat>>, L: nat)
    requires PathsStay(t0, lv0, t1, lv1, L) && SameBelow(t0, lv0, t1, lv1, L) && SameBelow(t1, lv1, t2, lv2, L)
    requires PathsStay(t1, lv1, t2, lv2, L) || PathsStay(t1, lv1, t2, lv2, 0)
    ensures PathsStay(t0, lv0, t2, lv2, L) && SameBelow(t0, lv0, t2, lv2, L)
  {
    hide PathClean;
  }

  lemma PathKept(t0: Tree, lv0: seq<seq<nat>>, t1: Tree, lv1: seq<seq<nat>>, q: nat, K: nat)
    requires exists L: nat :: L <= K && PathsStay(t0, lv0, t1, lv1, L)
    requires PathClean(t0, lv0, q, K)
    ensures PathClean(t1, lv1, q, K)
  {
    hide PathClean;
  }

  lemma ChildStays(t0: Tree, lv0: seq<seq<nat>>, t1: Tree, lv1: seq<seq<nat>>, L: nat, e: Slot)
    requires 0 < L <= |lv0| && SameBelow(t0, lv0, t1, lv1, L) && In(t0.nodes, lv0[L - 1])
      && HasChild(View(t0.nodes, lv0[L - 1]), lv0[L - 1], e.value, e.key)
    ensures In(t1.nodes, lv1[L - 1]) && HasChild(View(t1.nodes, lv1[L - 1]), lv1[L - 1], e.value, e.key)
  {
    hide HasChild;
  }

  /** Dropping the last of the entries a node still lists. */
  lemma CutLast(n: Node, perm: Perm)
    requires NodeOk(n) && PermOk(perm) && 0 < perm.size <= n.perm.size
      && perm.slots[..perm.size] == n.perm.slots[..perm.size]
    ensures
      var j := perm.size - 1;
      var p := RemoveToBack(perm, j);
      SlotAt(n.(perm := perm), j) == Listed(n)[j] && PermOk(p) && p.size == j && p.slots[..j] == n.perm.slots[..j]
  {
    hide NoDup, Ascending;
    var j := perm.size - 1;
    RemoveOk(perm, j);
    assert perm.slots[j] == n.perm.slots[..j + 1][j];
    assert RemoveToBack(perm, j).slots[..j] == perm.slots[..j + 1][..j] == n.perm.slots[..j + 1][..j];
  }

  lemma CutListed(n: Node, perm: Perm, x: nat)
    requires NodeOk(n) && PermOk(perm) && perm.size <= n.perm.size
      && perm.slots[..perm.size] == n.perm.slots[..perm.size]
    requires perm.size == Rank(Listed(n), x)
    ensures Listed(n.(perm := perm)) == Front(Listed(n), x)
  {
    var n' := n.(perm := perm);
    forall j | 0 <= j < perm.size ensures Listed(n')[j] == Listed(n)[j] {
      assert perm.slots[j] == perm.slots[..perm.size][j];
    }
  }

  lemma NotRoot(t: Tree, lv: seq<seq<nat>>, L: nat, i: nat)
    requires TreeOk(t, lv) && L < |lv| && i < |lv[L]| && t.root != lv[L][i] && (L + 1 < |lv| || i == 0)
    ensures L + 1 < |lv|
  {
    hide TreeOk;
    RootIs(t, lv);
  }

  /** Changes above level L, after changes within it. */
  lemma SameLevel(t0: Tree, lv0: seq<seq<nat>>, t1: Tree, t2: Tree, lv2: seq<seq<nat>>, L: nat, K: nat)
    requires PathsStay(t0, lv0, t1, lv0, 0) && SameBelow(t0, lv0, t1, lv0, L)
    requires L < K <= |lv0| && SameBelow(t1, lv0, t2, lv2, K)
      && (PathsStay(t1, lv0, t2, lv2, L + 1) || PathsStay(t1, lv0, t2, lv2, 0))
    ensures PathsStay(t0, lv0, t2, lv2, L) && SameBelow(t0, lv0, t2, lv2, L)
    ensures lv2[L] == lv0[L] && In(t1.nodes, lv0[L]) && In(t2.nodes, lv2[L])
      && View(t2.nodes, lv2[L]) == View(t1.nodes, lv0[L])
    ensures forall j: nat :: j < |lv0[L]| ==> t2.nodes[lv0[L][j]].low == t1.nodes[lv0[L][j]].low
  {
    hide PathClean;
    PathsCompose(t0, lv0, t1, lv0, t2, lv2, L);
    forall j: nat | j < |lv0[L]| ensures t2.nodes[lv0[L][j]].low == t1.nodes[lv0[L][j]].low {
      assert View(t2.nodes, lv2[L])[j] == View(t1.nodes, lv0[L])[j];
    }
  }

  lemma ParentedLevel(t: Tree, lv: seq<seq<nat>>, L: nat, k: nat)
    requires Parented(t, lv, L, k)
    ensures L < |lv|
  {
  }

  lemma RootParents(t: Tree, lv: seq<seq<nat>>, x: nat, n: Node, k: nat)
    requires x in t.nodes && t.nodes[x] == n && |lv| > 0 && lv[|lv| - 1] == [x] && |Listed(n)| == 1
      && Listed(n)[0].key == k
    ensures Parented(t, lv, |lv| - 1, k)
  {
    assert View(t.nodes, [x]) == [n];
  }

  /** Every key from a to b has clean nodes above it from level L on. */
  ghost predicate PathsAbove(t: Tree, lv: seq<seq<nat>>, a: nat, b: nat, L: nat) {
    forall q: nat :: a <= q <= b ==> PathClean(t, lv, q, L)
  }

  lemma FirstClean(ns: seq<Node>)
    ensures CleanAt(ns, 0)
  {
  }

  lemma NothingAbove(t: Tree, lv: seq<seq<nat>>)
    ensures forall a: nat, b: nat :: PathsAbove(t, lv, a, b, |lv|)
  {
    assert forall q: nat :: PathClean(t, lv, q, |lv|);
  }

  lemma PathsAboveKept(t0: Tree, lv0: seq<seq<nat>>, t1: Tree, lv1: seq<seq<nat>>, a: nat, a': nat, b: nat, K: nat)
    requires PathsAbove(t0, lv0, a, b, K + 1) && PathsStay(t0, lv0, t1, lv1, K) && a <= a'
    ensures PathsAbove(t1, lv1, a', b, K + 1)
  {
    hide PathClean;
  }

  lemma PathsNarrow(t: Tree, lv: seq<seq<nat>>, a: nat, a': nat, b: nat, K: nat)
    requires PathsAbove(t, lv, a, b, K) && a <= a'
    ensures PathsAbove(t, lv, a', b, K)
  {
    hide PathClean;
  }

  lemma PathsAt(t: Tree, lv: seq<seq<nat>>, a: nat, b: nat, q: nat, L: nat)
    requires PathsAbove(t, lv, a, b, L) && a <= q <= b
    ensures PathClean(t, lv, q, L)
  {
    hide PathClean;
  }

  lemma LevelCover(t: Tree, lv: seq<seq<nat>>, L: nat, i: nat, q: nat)
    requires TreeOk(t, lv) && L < |lv| && i < |lv[L]| && In(t.nodes, lv[L]) && t.nodes[lv[L][i]].low <= q
      && Below(q, FenceOf(View(t.nodes, lv[L]), i))
    ensures Cover(View(t.nodes, lv[L]), q, 0) == i
  {
    hide TreeOk, RowOk, LevelOk, ParentsOk, Cover;
    LevelFacts(t, lv, L);
    RowStarts(View(t.nodes, lv[L]), L);
    CoverIs(View(t.nodes, lv[L]), L, q, 0, i);
  }

  /** Between the fences of a clean node every path is clean at its level too. */
  lemma PathsHere(t: Tree, lv: seq<seq<nat>>, K: nat, i: nat, b: nat)
    requires TreeOk(t, lv) && K < |lv| && i < |lv[K]| && In(t.nodes, lv[K]) && CleanAt(View(t.nodes, lv[K]), i)
    requires Below(b, FenceOf(View(t.nodes, lv[K]), i)) && PathsAbove(t, lv, t.nodes[lv[K][i]].low, b, K + 1)
    ensures PathsAbove(t, lv, t.nodes[lv[K][i]].low, b, K)
  {
    hide TreeOk, PathClean, Cover, CleanAt;
    forall q: nat | t.nodes[lv[K][i]].low <= q <= b ensures PathClean(t, lv, q, K) {
      LevelCover(t, lv, K, i, q);
      PathDown(t, lv, q, K);
    }
  }

  lemma PlaceBelow(t1: Tree, lv1: seq<seq<nat>>, t2: Tree, lv2: seq<seq<nat>>, K: nat, i: nat, n: Node,
        fence: Option<nat>)
    requires NodeIs(t1, lv1, 0, i, n, fence) && SameBelow(t1, lv1, t2, lv2, K) && K > 0
    ensures NodeIs(t2, lv2, 0, i, n, fence) && lv2[0] == lv1[0]
  {
    hide CleanAt;
    assert View(t2.nodes, lv2[0])[i] == View(t1.nodes, lv1[0])[i];
  }

  /** Whichever half of the leaf the new pair belongs to is ready for it. */
  ghost predicate LeafHalvesFit(l: Node, r: Node, fence: Option<nat>, e: Slot, p: nat) {
    if p < 8 then NodeOk(l) && l.perm.size < WIDTH && Fits(l, e, Some(r.low)) && p == Rank(Listed(l), e.key)
    else
      && NodeOk(r) && r.perm.size < WIDTH && Fits(r, e, fence) && p - 8 == Rank(Listed(r), e.key)
      && SlotAt(r, WIDTH - 1) == e
  }

  lemma LeafHalvesFitNow(n: Node, l: Node, r: Node, fence: Option<nat>, fence': Option<nat>, e: Slot, p: nat)
    requires NodeAt(n, 0) && n.perm.size == WIDTH && Fits(n, e, fence) && p == Rank(Listed(n), e.key)
      && Below(e.key, fence')
    requires TakesOver(n, r, fence') && r.perm.size == (if p < 8 then 8 else 7)
      && l == n.(perm := SetSize(n.perm, WIDTH - r.perm.size))
    requires Front(Listed(n), r.low) == Listed(n)[..WIDTH - r.perm.size]
    requires
      if p < 8 then e.key < r.low
      else r.low <= e.key && SlotAt(r, WIDTH - 1) == e && Rank(Listed(r), e.key) == p - 8
    ensures LeafHalvesFit(l, r, fence', e, p)
  {
    hide Rank;
    if p < 8 {
      hide TakesOver;
      Shrink(n, WIDTH - r.perm.size);
      assert NodeOk(l);
      FitsLeft(n, l, e, fence, r, WIDTH - r.perm.size);
    } else {
      LeafFitsRight(n, e, fence, fence', r);
    }
  }

  lemma FitsWider(n: Node, e: Slot, fence: Option<nat>, fence': Option<nat>)
    requires Fits(n, e, fence) && Below(e.key, fence')
    ensures Fits(n, Slot(e.key, e.value), fence')
  {
  }

  lemma LeafFitsRight(n: Node, e: Slot, fence: Option<nat>, fence': Option<nat>, r: Node)
    requires n.level == 0 && Fits(n, e, fence) && TakesOver(n, r, fence') && r.low <= e.key && Below(e.key, fence')
    ensures NodeOk(r) && Fits(r, e, fence')
  {
    TakesOverFacts(n, r, fence');
    hide Tail, Rank, PairOk;
    forall j | 0 <= j < |Listed(r)| ensures Listed(r)[j].key != e.key { ListedInContent(r, j); }
  }

  lemma PathPlace(t: Tree, lv: seq<seq<nat>>, i: nat, key: nat)
    requires TreeOk(t, lv) && |lv| > 0 && i < |lv[0]| && In(t.nodes, lv[0]) && i == Cover(View(t.nodes, lv[0]), key, 0)
      && PathClean(t, lv, key, 0)
    ensures NodeIs(t, lv, 0, i, t.nodes[lv[0][i]], FenceOf(View(t.nodes, lv[0]), i)) && t.nodes[lv[0][i]].low <= key
  {
    hide TreeOk;
    LevelFacts(t, lv, 0);
    RowStarts(View(t.nodes, lv[0]), 0);
    assert CleanOn(t, lv[0], key);
  }

  lemma NothingYet(ns: seq<Node>, a: nat, min: nat)
    requires a <= |ns|
    ensures From(Flat(ns, a, a), min) == []
  {
  }

  // ---- a state stands for one map only ----

  lemma {:induction false} LevelsUnique(t: Tree, lv: seq<seq<nat>>, lv': seq<seq<nat>>, K: nat)
    requires TreeOk(t, lv) && TreeOk(t, lv') && K < |lv|
    ensures |lv'| == |lv| && lv'[K] == lv[K]
    decreases |lv| - K
  {
    hide TreeOk;
    RootIs(t, lv);
    RootIs(t, lv');
    if K + 1 < |lv| {
      LevelsUnique(t, lv, lv', K + 1);
      FirstChild(t, lv, K + 1);
      FirstChild(t, lv', K + 1);
    }
    LevelList(t, lv, K);
    LevelList(t, lv', K);
    hide IsList;
    UniqueList(t.next, Some(lv[K][0]), lv[K], lv'[K]);
  }

  lemma FirstChild(t: Tree, lv: seq<seq<nat>>, K: nat)
    requires TreeOk(t, lv) && 0 < K < |lv|
    ensures lv[K] != [] && lv[K - 1] != [] && lv[K][0] in t.nodes && lv[K - 1][0] == t.nodes[lv[K][0]].leftmost
  {
    hide TreeOk, RowOk, LevelOk, ParentsOk;
    LevelFacts(t, lv, K);
    LevelFacts(t, lv, K - 1);
    RowStarts(View(t.nodes, lv[K]), K);
    RowStarts(View(t.nodes, lv[K - 1]), K - 1);
    Leftmost(View(t.nodes, lv[K]), View(t.nodes, lv[K - 1]), lv[K - 1], K - 1);
  }

  lemma Leftmost(up: seq<Node>, ns: seq<Node>, ids: seq<nat>, L: nat)
    requires ParentsOk(up, ns, ids) && RowOk(ns, L) && up != [] && ns != [] && up[0].low == 0 && |ids| == |ns|
    ensures ids[0] == up[0].leftmost
  {
    assert ParentAt(up[0], FenceOf(up, 0), ns, ids);
    hide ParentsOk, ParentAt, RowOk, CleanAt;
    var j: nat :| IsChild(ns, ids, up[0].leftmost, up[0].low, j);
    if j > 0 { FencesAscend(ns, L, 0, j); }
  }

  lemma LevelList(t: Tree, lv: seq<seq<nat>>, K: nat)
    requires TreeOk(t, lv) && K < |lv|
    ensures lv[K] != [] && IsList(t.next, Some(lv[K][0]), lv[K])
  {
    hide TreeOk, RowOk, ParentsOk, IsList;
    LevelFacts(t, lv, K);
  }

  /** A persisted state, however torn, stands for exactly one map. */
  lemma MeansOne(t: Tree, m: map<nat, nat>, m': map<nat, nat>)
    requires Means(t, m) && Means(t, m')
    ensures m == m'
  {
    hide TreeOk, Lookup;
    var lv :| Denotes(t, lv, m);
    var lv' :| Denotes(t, lv', m');
    TreeOf(t, lv, m);
    LevelsUnique(t, lv, lv', 0);
    LevelFacts(t, lv, 0);
    forall k: nat ensures MapAt(m, k) == MapAt(m', k) { assert Lookup(View(t.nodes, lv[0]), k) == MapAt(m, k); }
    hide Denotes;
    SameMap(m, m');
  }

  lemma SameMap(m: map<nat, nat>, m': map<nat, nat>)
    requires forall k: nat :: MapAt(m, k) == MapAt(m', k)
    ensures m == m'
  {
    forall k: nat ensures k in m <==> k in m' { assert MapAt(m, k) == MapAt(m', k); }
    forall k: nat | k in m ensures m[k] == m'[k] { assert MapAt(m, k) == MapAt(m', k); }
  }

  lemma TreeOf(t: Tree, lv: seq<seq<nat>>, m: map<nat, nat>)
    requires Denotes(t, lv, m)
    ensures TreeOk(t, lv) && |lv| > 0
  {
  }

  lemma PathsLess(t: Tree, lv: seq<seq<nat>>, t': Tree, lv': seq<seq<nat>>, L: nat)
    requires PathsStay(t, lv, t', lv', 0)
    ensures PathsStay(t, lv, t', lv', L)
  {
    hide PathClean;
  }

  /** Further changes from level K > L up keep what holds at level L. */
  lemma AfterMore(t0: Tree, lv0: seq<seq<nat>>, t1: Tree, lv1: seq<seq<nat>>, t2: Tree, lv2: seq<seq<nat>>, L: nat,
        k: nat, K: nat)
    requires PathsStay(t0, lv0, t1, lv1, L) && SameBelow(t0, lv0, t1, lv1, L) && Parented(t1, lv1, L, k)
    requires L < K && SameBelow(t1, lv1, t2, lv2, K)
      && (PathsStay(t1, lv1, t2, lv2, L + 1) || PathsStay(t1, lv1, t2, lv2, 0))
    ensures PathsStay(t0, lv0, t2, lv2, L) && SameBelow(t0, lv0, t2, lv2, L) && Parented(t2, lv2, L, k)
  {
    ParentedStays(t1, lv1, t2, lv2, L, k, K);
    hide PathClean, Parented;
    PathsCompose(t0, lv0, t1, lv1, t2, lv2, L);
  }

  lemma ParentedStays(t: Tree, lv: seq<seq<nat>>, t': Tree, lv': seq<seq<nat>>, L: nat, k: nat, K: nat)
    requires Parented(t, lv, L, k) && SameBelow(t, lv, t', lv', K) && L < K
    ensures Parented(t', lv', L, k)
  {
  }

  lemma ParentedAt(t: Tree, lv: seq<seq<nat>>, L: nat, j: nat, k: nat)
    requires TreeOk(t, lv) && L < |lv| && j < |lv[L]| && In(t.nodes, lv[L])
    requires t.nodes[lv[L][j]].low <= k && Below(k, FenceOf(View(t.nodes, lv[L]), j)) && Lists(t.nodes[lv[L][j]], k)
    ensures Parented(t, lv, L, k)
  {
    hide TreeOk, RowOk, LevelOk, ParentsOk;
    LevelFacts(t, lv, L);
    RowStarts(View(t.nodes, lv[L]), L);
    CoverIs(View(t.nodes, lv[L]), L, k, 0, j);
  }

  lemma FenceKept(t0: Tree, t: Tree, lv: seq<seq<nat>>, L: nat, i: nat)
    requires L < |lv| && i < |lv[L]| && In(t0.nodes, lv[L]) && In(t.nodes, lv[L])
    requires forall j: nat :: j < |lv[L]| ==> t.nodes[lv[L][j]].low == t0.nodes[lv[L][j]].low
    ensures FenceOf(View(t.nodes, lv[L]), i) == FenceOf(View(t0.nodes, lv[L]), i)
  {
  }

  lemma ParentedHere(t0: Tree, t: Tree, lv: seq<seq<nat>>, L: nat, i: nat, n: Node, fence: Option<nat>, e: Slot)
    requires TreeOk(t, lv) && NodeIs(t0, lv, L, i, n, fence) && Fits(n, e, fence)
    requires
      var x := lv[L][i];
      x in t.nodes && t.nodes == t0.nodes[x := t.nodes[x]] && t.nodes[x].low == n.low && In(t.nodes, lv[L])
        && Lists(t.nodes[x], e.key)
    ensures Parented(t, lv, L, e.key)
  {
    hide TreeOk, CleanAt;
    FenceKept(t0, t, lv, L, i);
    ParentedAt(t, lv, L, i, e.key);
  }

  lemma ParentedHalf(t0: Tree, t: Tree, lv: seq<seq<nat>>, L: nat, i: nat, l: Node, r: Node, fence: Option<nat>,
        e: Slot, p: nat)
    requires TreeOk(t, lv) && NodeIs(t0, lv, L, i, l, Some(r.low)) && NodeIs(t0, lv, L, i + 1, r, fence)
      && HalvesFit(l, r, fence, e, p)
    requires In(t.nodes, lv[L]) && forall j: nat :: j < |lv[L]| ==> t.nodes[lv[L][j]].low == t0.nodes[lv[L][j]].low
    requires Lists(t.nodes[if e.key < r.low then lv[L][i] else lv[L][i + 1]], e.key)
    ensures Parented(t, lv, L, e.key)
  {
    hide TreeOk, CleanAt, Rank;
    var j := if e.key < r.low then i else i + 1;
    FenceKept(t0, t, lv, L, j);
    ParentedAt(t, lv, L, j, e.key);
  }

  /** Whichever half the new entry belongs to has room for it. */
  ghost predicate HalvesFit(l: Node, r: Node, fence: Option<nat>, e: Slot, p: nat) {
    && (e.key < r.low ==> NodeOk(l) && l.perm.size < WIDTH && Fits(l, e, Some(r.low)) && p == Rank(Listed(l), e.key))
    && (e.key >= r.low ==> NodeOk(r) && r.perm.size < WIDTH && Fits(r, e, fence))
  }

  lemma HalvesFitNow(n: Node, l: Node, r: Node, fence: Option<nat>, fence': Option<nat>, e: Slot, p: nat)
    requires NodeOk(n) && n.perm.size == WIDTH && Fits(n, e, fence) && p == Rank(Listed(n), e.key)
      && Below(e.key, fence')
    requires TakesOver(n, r, fence') && r.perm.size == 7 && l == n.(perm := SetSize(n.perm, 7))
      && Front(Listed(n), r.low) == Listed(n)[..7]
    requires exists j :: 0 <= j < |Listed(n)| && Listed(n)[j].key == r.low
    ensures HalvesFit(l, r, fence', e, p)
  {
    hide TakesOver, Rank;
    Shrink(n, 7);
    assert NodeOk(l);
    if e.key < r.low { FitsLeft(n, l, e, fence, r, 7); } else { FitsRight(n, e, fence, fence', r); }
  }

  lemma FitsLeft(n: Node, l: Node, e: Slot, fence: Option<nat>, r: Node, keep: nat)
    requires NodeOk(n) && Fits(n, e, fence) && e.key < r.low && keep <= |Listed(n)|
      && Front(Listed(n), r.low) == Listed(n)[..keep]
    requires Listed(l) == Listed(n)[..keep] && SamePlace(n, l)
    ensures Fits(l, e, Some(r.low)) && Rank(Listed(l), e.key) == Rank(Listed(n), e.key)
  {
    var s, q := Listed(n), Rank(Listed(n), e.key);
    RankSplits(s, e.key);
    RankGrows(s, e.key, r.low);
    assert keep == Rank(s, r.low) by { assert |Front(s, r.low)| == |s[..keep]|; }
    RankIs(Listed(l), e.key, q);
  }

  lemma FitsRight(n: Node, e: Slot, fence: Option<nat>, fence': Option<nat>, r: Node)
    requires Fits(n, e, fence) && TakesOver(n, r, fence') && r.low <= e.key && Below(e.key, fence')
    requires exists j :: 0 <= j < |Listed(n)| && Listed(n)[j].key == r.low
    ensures NodeOk(r) && Fits(r, e, fence') && forall j :: 0 <= j < |Listed(r)| ==> Listed(r)[j].key != e.key
  {
    TakesOverFacts(n, r, fence');
    hide Tail, Rank, PairOk;
    forall j | 0 <= j < |Listed(r)| ensures Listed(r)[j].key != e.key { ListedInContent(r, j); }
  }

  lemma FitsRange(n: Node, e: Slot, fence: Option<nat>)
    requires Fits(n, e, fence)
    ensures n.low <= e.key && Below(e.key, fence)
  {
  }

  lemma ChildHere(t: Tree, lv: seq<seq<nat>>, L: nat, i: nat)
    requires L < |lv| && i < |lv[L]| && In(t.nodes, lv[L]) && CleanAt(View(t.nodes, lv[L]), i)
    ensures HasChild(View(t.nodes, lv[L]), lv[L], lv[L][i], t.nodes[lv[L][i]].low)
  {
    assert IsChild(View(t.nodes, lv[L]), lv[L], lv[L][i], t.nodes[lv[L][i]].low, i);
  }

  /** Changes above level L leave the paths through level L as clean as they were. */
  lemma PathsCompose(t0: Tree, lv0: seq<seq<nat>>, t1: Tree, lv1: seq<seq<nat>>, t2: Tree, lv2: seq<seq<nat>>, L: nat)
    requires PathsStay(t0, lv0, t1, lv1, L) && SameBelow(t1, lv1, t2, lv2, L + 1) && PathsStay(t1, lv1, t2, lv2, L + 1)
    ensures PathsStay(t0, lv0, t2, lv2, L)
  {
    hide PathClean;
    forall q: nat, K: nat | K >= L && PathClean(t0, lv0, q, K) ensures PathClean(t2, lv2, q, K) {
      if K == L { PathThrough(t1, lv1, t2, lv2, q, L); }
    }
  }

  lemma PathThrough(t1: Tree, lv1: seq<seq<nat>>, t2: Tree, lv2: seq<seq<nat>>, q: nat, L: nat)
    requires PathClean(t1, lv1, q, L) && SameBelow(t1, lv1, t2, lv2, L + 1) && PathsStay(t1, lv1, t2, lv2, L + 1)
    ensures PathClean(t2, lv2, q, L)
  {
    PathUp(t1, lv1, q, L);
    assert CleanOn(t1, lv1[L], q);
    hide CleanAt;
    assert PathClean(t2, lv2, q, L + 1);
    assert CleanOn(t2, lv2[L], q);
    PathDown(t2, lv2, q, L);
  }

  lemma SiblingOfRoot(t: Tree, lv: seq<seq<nat>>, L: nat, i: nat)
    requires TreeOk(t, lv) && L < |lv| && i < |lv[L]| && t.root == lv[L][i]
    ensures L == |lv| - 1 && i == 0
  {
    hide TreeOk;
    RootIs(t, lv);
    LevelFacts(t, lv, L);
  }

  lemma RootNode(n: Node, k: nat, y: nat)
    requires n.entry == BLANK[0 := Slot(k, y)] && n.perm == MakeSorted(1)
    ensures NodeOk(n) && Listed(n) == [Slot(k, y)]
  {
  }

  lemma PlacePrepared(t0: Tree, t1: Tree, lv: seq<seq<nat>>, L: nat, i: nat, n: Node, fence: Option<nat>)
    requires NodeIs(t0, lv, L, i, n, fence) && SameBelow(t0, lv, t1, lv, |lv|)
    ensures NodeIs(t1, lv, L, i, n, fence)
  {
    hide CleanAt;
    assert View(t1.nodes, lv[L])[i] == View(t0.nodes, lv[L])[i];
  }

  lemma Placed(t: Tree, lv: seq<seq<nat>>, L: nat, i: nat, n: Node, fence: Option<nat>, m: map<nat, nat>)
    requires Denotes(t, lv, m) && NodeIs(t, lv, L, i, n, fence)
    ensures L < |lv| && i < |lv[L]| && In(t.nodes, lv[L]) && lv[L][i] in t.nodes && lv[L][i] in t.next
      && t.next[lv[L][i]] == Nth(lv[L], i + 1)
  {
    hide TreeOk, Lookup, NodeAt, Under;
    TreeOf(t, lv, m);
    LevelFacts(t, lv, L);
    NextKnown(t, lv[L], i);
  }

  /** A sibling that has been filled is linked: all that follows from the one store. */
  lemma LinkAll(t0: Tree, t1: Tree, lv: seq<seq<nat>>, m: map<nat, nat>, L: nat, i: nat, n: Node, fence: Option<nat>,
        x: nat)
    requires Denotes(t1, lv, m) && NodeIs(t0, lv, L, i, n, fence) && Fresh(lv, x)
    requires SameBelow(t0, lv, t1, lv, |lv|) && PathsStay(t0, lv, t1, lv, 0)
    requires x in t1.nodes && x in t1.next && t1.next[x] == Nth(lv[L], i + 1) && TakesOver(n, t1.nodes[x], fence)
    ensures var t2, lv2 := SetNext(t1, lv[L][i], Some(x)), lv[L := Inserted(lv[L], i + 1, x)];
      && Denotes(t2, lv2, m) && NodeIs(t2, lv2, L, i, n, Some(t1.nodes[x].low))
      && lv2[L][i + 1] == x && FenceOf(View(t2.nodes, lv2[L]), i + 1) == fence
      && SameBelow(t0, lv, t2, lv2, L) && AlmostPaths(t0, lv, t2, lv2, L, i)
      && (LevelClean(t0, lv, L) ==> AlmostClean(t2, lv2, L, i))
  {
    hide TreeOk, PathClean, CleanAt, TakesOver, Fresh, AlmostPaths, LevelClean, AlmostClean, PathsStay, SameBelow,
         Denotes, NodeAt, Under;
    TreeOf(t1, lv, m);
    PlacePrepared(t0, t1, lv, L, i, n, fence);
    LinkStep(t1, lv, m, L, i, n, fence, x);
    LinkSiblingPaths(t0, t1, lv, L, i, n, fence, x);
    LinkSiblingBelow(t0, t1, lv, L, i, x);
    LinkAlmostClean(t0, t1, lv, L, i, n, fence, x);
  }

  lemma LinkSiblingPaths(t0: Tree, t1: Tree, lv: seq<seq<nat>>, L: nat, i: nat, n: Node, fence: Option<nat>, x: nat)
    requires TreeOk(t1, lv) && NodeIs(t1, lv, L, i, n, fence) && Fresh(lv, x) && PathsStay(t0, lv, t1, lv, 0)
    requires x in t1.nodes && x in t1.next && t1.next[x] == Nth(lv[L], i + 1) && TakesOver(n, t1.nodes[x], fence)
    requires var t2, lv2 := SetNext(t1, lv[L][i], Some(x)), lv[L := Inserted(lv[L], i + 1, x)];
      forall q: nat, K: nat :: K > L && PathClean(t1, lv, q, K) ==> PathClean(t2, lv2, q, K)
    ensures AlmostPaths(t0, lv, SetNext(t1, lv[L][i], Some(x)), lv[L := Inserted(lv[L], i + 1, x)], L, i)
  {
    hide TreeOk, TakesOver, PathClean, AlmostOn;
    LinkPaths(t1, lv, L, i, n, fence, x);
  }

  lemma LinkSiblingBelow(t0: Tree, t1: Tree, lv: seq<seq<nat>>, L: nat, i: nat, x: nat)
    requires L < |lv| && i < |lv[L]| && SameBelow(t0, lv, t1, lv, |lv|)
    ensures SameBelow(t0, lv, SetNext(t1, lv[L][i], Some(x)), lv[L := Inserted(lv[L], i + 1, x)], L)
  {
  }

  lemma NoFence(n: Node)
    ensures Under(n, None)
  {
  }

  lemma CutNode(n: Node, r: Node, fence: Option<nat>, keep: nat)
    requires TakesOver(n, r, fence) && keep <= n.perm.size && Front(Listed(n), r.low) == Listed(n)[..keep]
    ensures
      var n' := n.(perm := SetSize(n.perm, keep));
      Shaped(n') && Listed(n') == Front(Listed(n), r.low) && Listed(n') == Listed(n)[..keep] && SamePlace(n, n')
  {
    Shrink(n, keep);
  }

  /** Linking leaves every path clean but for the new sibling ... */
  lemma LinkPaths(t: Tree, lv: seq<seq<nat>>, L: nat, i: nat, n: Node, fence: Option<nat>, x: nat)
    requires TreeOk(t, lv) && NodeIs(t, lv, L, i, n, fence) && Fresh(lv, x)
    requires x in t.nodes && x in t.next && t.next[x] == Nth(lv[L], i + 1) && TakesOver(n, t.nodes[x], fence)
    ensures var t', ids := SetNext(t, lv[L][i], Some(x)), Inserted(lv[L], i + 1, x);
      forall q: nat :: PathClean(t, lv, q, L) ==> AlmostOn(t', ids, i, q) && PathClean(t', lv[L := ids], q, L + 1)
  {
    hide TreeOk, TakesOver, PathClean, AlmostOn;
    var t', ids := SetNext(t, lv[L][i], Some(x)), Inserted(lv[L], i + 1, x);
    forall q: nat | PathClean(t, lv, q, L) ensures AlmostOn(t', ids, i, q) && PathClean(t', lv[L := ids], q, L + 1) {
      LinkPath(t, lv, L, i, n, fence, x, q);
    }
  }

  /** ... which cutting the left node back makes good. */
  lemma CutPaths(t: Tree, lv: seq<seq<nat>>, L: nat, i: nat, n: Node, x: nat, n': Node, t0: Tree, lv0: seq<seq<nat>>)
    requires TreeOk(t, lv) && NodeIs(t, lv, L, i, n, Some(x)) && Shaped(n') && Listed(n') == Front(Listed(n), x)
      && SamePlace(n, n')
    requires AlmostPaths(t0, lv0, t, lv, L, i)
    ensures PathsStay(t0, lv0, SetNode(t, lv[L][i], n'), lv, L)
  {
    hide TreeOk, PathClean, AlmostOn;
    var t' := SetNode(t, lv[L][i], n');
    forall q: nat, K: nat | K >= L && PathClean(t0, lv0, q, K) ensures PathClean(t', lv, q, K) {
      if K == L { CutPath(t, lv, L, i, n, x, n', q); } else { CutAbove(t, lv, L, i, n, x, n', q, K); }
    }
  }

  lemma CutAbove(t: Tree, lv: seq<seq<nat>>, L: nat, i: nat, n: Node, x: nat, n': Node, q: nat, K: nat)
    requires TreeOk(t, lv) && NodeIs(t, lv, L, i, n, Some(x)) && K > L && PathClean(t, lv, q, K)
    ensures PathClean(SetNode(t, lv[L][i], n'), lv, q, K)
  {
    hide TreeOk, PathClean, OthersStay;
    LevelFacts(t, lv, L);
    SetStays(t, lv[L][i], n');
    PathAbove(t, SetNode(t, lv[L][i], n'), lv, L, lv[L], q, K);
    assert lv[L := lv[L]] == lv;
  }

  lemma CutPlaces(t: Tree, lv: seq<seq<nat>>, L: nat, i: nat, n: Node, x: nat, n': Node, y: nat, r: Node,
        fence: Option<nat>)
    requires TreeOk(t, lv) && NodeIs(t, lv, L, i, n, Some(x)) && Shaped(n') && Listed(n') == Front(Listed(n), x)
      && SamePlace(n, n')
    requires i + 1 < |lv[L]| && lv[L][i + 1] == y && y in t.nodes && t.nodes[y] == r && r.low == x
      && fence == FenceOf(View(t.nodes, lv[L]), i + 1)
    ensures
      var t' := SetNode(t, lv[L][i], n');
      NodeIs(t', lv, L, i, n', Some(x)) && NodeIs(t', lv, L, i + 1, r, fence) && t'.nodes[y] == r
  {
    hide TreeOk, RowOk, LevelOk, ParentsOk, Keeps;
    LevelFacts(t, lv, L);
    var ns, t' := View(t.nodes, lv[L]), SetNode(t, lv[L][i], n');
    NodeAtLevel(ns, L, i);
    KeepsFront(n, n', x, L);
    PlaceSet(t, lv, L, i, n, Some(x), n');
    LowKept(n, n', Some(x));
    assert View(t'.nodes, lv[L]) == ns[i := n'];
  }

  lemma NodeShape(n: Node, L: nat)
    requires NodeAt(n, L)
    ensures NodeOk(n) && n.level == L
  {
  }

  lemma RootIs(t: Tree, lv: seq<seq<nat>>)
    requires TreeOk(t, lv)
    ensures
      var H := |lv| - 1;
      In(t.nodes, lv[H]) && 0 < |lv[H]| && t.root == lv[H][0] && t.nodes[t.root].low == 0 && t.nodes[t.root].level == H
  {
    LevelFacts(t, lv, |lv| - 1);
    RowStarts(View(t.nodes, lv[|lv| - 1]), |lv| - 1);
  }

  lemma EmptyTree(n: Node)
    requires n == Node(0, BLANK, MakeSorted(0), 0, 0)
    ensures Denotes(Tree(map[0 := n], map[0 := None], 0), [[0]], map[])
    ensures Means(Tree(map[0 := n], map[0 := None], 0), map[])
  {
    var t, lv := Tree(map[0 := n], map[0 := None], 0), [[0]];
    assert Listed(n) == [];
    assert View(t.nodes, lv[0]) == [n];
    assert LevelOk(t, lv[0], 0);
    assert TreeOk(t, lv);
    forall k: nat ensures Lookup(View(t.nodes, lv[0]), k) == MapAt(map[], k) { }
    assert Denotes(t, lv, map[]);
  }
}
