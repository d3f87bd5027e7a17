/** The stores of an insertion on the whole tree: each keeps it well formed. */
module MassStores {
  import opened Common
  import opened CountedStack
  import opened MassNode
  import opened MassTree
  import opened MassRows

  // ---- changing one level ----

  /** Nothing outside level L changes. */
  ghost predicate OthersStay(t: Tree, t': Tree, L: nat) {
    && t'.root == t.root
    && forall x: nat :: x in t.nodes && t.nodes[x].level != L ==>
         && x in t'.nodes && t'.nodes[x] == t.nodes[x]
         && (x in t.next ==> x in t'.next && t'.next[x] == t.next[x])
  }

  lemma LevelFacts(t: Tree, lv: seq<seq<nat>>, L: nat)
    requires TreeOk(t, lv) && L < |lv|
    ensures LevelOk(t, lv[L], L) && In(t.nodes, lv[L]) && NoDup(lv[L]) && lv[L] != [] && RowOk(View(t.nodes, lv[L]), L)
    ensures forall i :: 0 <= i < |lv[L]| ==> t.nodes[lv[L][i]].level == L
    ensures L > 0 ==>
      LevelOk(t, lv[L - 1], L - 1) && In(t.nodes, lv[L - 1])
      && ParentsOk(View(t.nodes, lv[L]), View(t.nodes, lv[L - 1]), lv[L - 1])
  {
    assert LevelOk(t, lv[L], L);
    forall i | 0 <= i < |lv[L]| ensures t.nodes[lv[L][i]].level == L { NodeAtLevel(View(t.nodes, lv[L]), L, i); }
    if L > 0 { assert LevelOk(t, lv[L - 1], L - 1); }
  }

  lemma LevelStays(t: Tree, t': Tree, lv: seq<seq<nat>>, L: nat, K: nat)
    requires TreeOk(t, lv) && OthersStay(t, t', L) && K < |lv| && K != L
    ensures LevelOk(t', lv[K], K) && In(t.nodes, lv[K]) && In(t'.nodes, lv[K])
      && View(t'.nodes, lv[K]) == View(t.nodes, lv[K])
  {
    hide TreeOk, RowOk, LevelOk, IsList;
    LevelFacts(t, lv, K);
    NextOn(t, lv[K], K);
    LevelSame(t, t', lv[K], K);
  }

  lemma NextOn(t: Tree, ids: seq<nat>, K: nat)
    requires LevelOk(t, ids, K)
    ensures forall i :: 0 <= i < |ids| ==> ids[i] in t.next
  {
    hide RowOk;
  }

  lemma LevelSame(t: Tree, t': Tree, ids: seq<nat>, K: nat)
    requires LevelOk(t, ids, K)
    requires forall i :: 0 <= i < |ids| ==> ids[i] in t'.nodes && t'.nodes[ids[i]] == t.nodes[ids[i]]
    requires forall i :: 0 <= i < |ids| ==> ids[i] in t.next && ids[i] in t'.next && t'.next[ids[i]] == t.next[ids[i]]
    ensures LevelOk(t', ids, K) && In(t.nodes, ids) && In(t'.nodes, ids) && View(t'.nodes, ids) == View(t.nodes, ids)
  {
    hide RowOk;
    assert View(t'.nodes, ids) == View(t.nodes, ids);
  }

  lemma ParentsMove(up: seq<Node>, ns: seq<Node>, ids: seq<nat>, ns': seq<Node>, ids': seq<nat>)
    requires ParentsOk(up, ns, ids) && ChildrenStay(ns, ids, ns', ids')
    ensures ParentsOk(up, ns', ids')
  {
    forall i | 0 <= i < |up| ensures ParentAt(up[i], FenceOf(up, i), ns', ids') {
      assert ParentAt(up[i], FenceOf(up, i), ns, ids);
    }
  }

  /** A new version of level L fits into the tree. */
  lemma LevelChanges(t: Tree, t': Tree, lv: seq<seq<nat>>, L: nat, ids: seq<nat>)
    requires TreeOk(t, lv) && L < |lv| && OthersStay(t, t', L) && LevelOk(t', ids, L) && In(t.nodes, lv[L])
      && ids[0] == lv[L][0]
    requires ChildrenStay(View(t.nodes, lv[L]), lv[L], View(t'.nodes, ids), ids)
    requires L > 0 ==> In(t.nodes, lv[L - 1]) && ParentsOk(View(t'.nodes, ids), View(t.nodes, lv[L - 1]), lv[L - 1])
    ensures TreeOk(t', lv[L := ids])
  {
    hide LevelOk, ParentsOk, ChildrenStay, OthersStay;
    var lv' := lv[L := ids];
    forall K | 0 <= K < |lv| ensures LevelOk(t', lv'[K], K) && In(t'.nodes, lv'[K]) {
      if K != L { LevelStays(t, t', lv, L, K); } else { LevelIn(t', ids, L); }
    }
    forall K | 0 < K < |lv| ensures ParentsOk(View(t'.nodes, lv'[K]), View(t'.nodes, lv'[K - 1]), lv'[K - 1]) {
      ParentsChange(t, t', lv, L, ids, K);
    }
    assert t'.root == t.root by { RootStays(t, t', L); }
  }

  lemma LevelIn(t: Tree, ids: seq<nat>, L: nat)
    requires LevelOk(t, ids, L)
    ensures In(t.nodes, ids) && ids != [] && RowOk(View(t.nodes, ids), L)
  {
  }

  lemma RootStays(t: Tree, t': Tree, L: nat)
    requires OthersStay(t, t', L)
    ensures t'.root == t.root
  {
  }

  lemma ParentsChange(t: Tree, t': Tree, lv: seq<seq<nat>>, L: nat, ids: seq<nat>, K: nat)
    requires TreeOk(t, lv) && L < |lv| && OthersStay(t, t', L) && LevelOk(t', ids, L) && In(t.nodes, lv[L])
      && 0 < K < |lv|
    requires ChildrenStay(View(t.nodes, lv[L]), lv[L], View(t'.nodes, ids), ids)
    requires L > 0 ==> In(t.nodes, lv[L - 1]) && ParentsOk(View(t'.nodes, ids), View(t.nodes, lv[L - 1]), lv[L - 1])
    ensures var lv' := lv[L := ids];
      In(t'.nodes, lv'[K]) && In(t'.nodes, lv'[K - 1])
        && ParentsOk(View(t'.nodes, lv'[K]), View(t'.nodes, lv'[K - 1]), lv'[K - 1])
  {
    hide TreeOk, LevelOk, ParentsOk, ChildrenStay, OthersStay, RowOk;
    LevelFacts(t, lv, K);
    LevelIn(t', ids, L);
    if K != L { LevelStays(t, t', lv, L, K); }
    if K - 1 != L { LevelStays(t, t', lv, L, K - 1); }
    else { ParentsMove(View(t.nodes, lv[K]), View(t.nodes, lv[L]), lv[L], View(t'.nodes, ids), ids); }
  }

  // ---- replacing a node ----

  function SetNode(t: Tree, x: nat, n': Node): Tree { t.(nodes := t.nodes[x := n']) }

  lemma Replace(t: Tree, lv: seq<seq<nat>>, L: nat, i: nat, n': Node)
    requires TreeOk(t, lv) && L < |lv| && i < |lv[L]| && In(t.nodes, lv[L]) && CleanAt(View(t.nodes, lv[L]), i)
    requires Keeps(t.nodes[lv[L][i]], n', FenceOf(View(t.nodes, lv[L]), i))
    requires L > 0 ==>
      In(t.nodes, lv[L - 1]) && ParentAt(n', FenceOf(View(t.nodes, lv[L]), i), View(t.nodes, lv[L - 1]), lv[L - 1])
    ensures TreeOk(SetNode(t, lv[L][i], n'), lv)
    ensures In(SetNode(t, lv[L][i], n').nodes, lv[L])
      && View(SetNode(t, lv[L][i], n').nodes, lv[L]) == View(t.nodes, lv[L])[i := n']
  {
    hide TreeOk, RowOk, Keeps, CleanAt, ChildrenStay, ParentsOk, ParentAt, OthersStay, LevelOk;
    var ids, ns := lv[L], View(t.nodes, lv[L]);
    var t' := SetNode(t, ids[i], n');
    LevelFacts(t, lv, L);
    ReplaceRow(ns, L, i, n');
    ReplaceChildren(ns, L, i, n', ids);
    assert View(t'.nodes, ids) == ns[i := n'];
    SetStays(t, ids[i], n');
    SetLevel(t, ids, L, i, n');
    if L > 0 { ReplaceParents(ns, i, n', View(t.nodes, lv[L - 1]), lv[L - 1], L); }
    LevelChanges(t, t', lv, L, ids);
    assert lv[L := ids] == lv;
  }

  lemma ReplaceParents(up: seq<Node>, i: nat, n': Node, ns: seq<Node>, ids: seq<nat>, L: nat)
    requires ParentsOk(up, ns, ids) && i < |up| && RowOk(up, L) && Keeps(up[i], n', FenceOf(up, i))
      && ParentAt(n', FenceOf(up, i), ns, ids)
    ensures ParentsOk(up[i := n'], ns, ids)
  {
    hide ParentAt, RowOk, Keeps;
    LowKept(up[i], n', FenceOf(up, i));
    var up' := up[i := n'];
    forall j | 0 <= j < |up'| ensures ParentAt(up'[j], FenceOf(up', j), ns, ids) {
      assert ParentAt(up[j], FenceOf(up, j), ns, ids);
      assert FenceOf(up', j) == FenceOf(up, j);
    }
  }

  lemma LowKept(n: Node, n': Node, fence: Option<nat>)
    requires Keeps(n, n', fence)
    ensures n'.low == n.low
  {
  }

  lemma SetStays(t: Tree, x: nat, n': Node)
    requires x in t.nodes
    ensures OthersStay(t, SetNode(t, x, n'), t.nodes[x].level)
  {
  }

  lemma SetLevel(t: Tree, ids: seq<nat>, L: nat, i: nat, n': Node)
    requires LevelOk(t, ids, L) && i < |ids| && In(t.nodes, ids) && RowOk(View(t.nodes, ids)[i := n'], L)
    ensures LevelOk(SetNode(t, ids[i], n'), ids, L)
  {
    hide RowOk;
    assert View(SetNode(t, ids[i], n').nodes, ids) == View(t.nodes, ids)[i := n'];
  }

  // ---- a node nobody points to yet ----

  ghost predicate Fresh(lv: seq<seq<nat>>, x: nat) { forall L :: 0 <= L < |lv| ==> x !in lv[L] }

  function AddNode(t: Tree, x: nat, n: Node, nx: Option<nat>): Tree {
    t.(nodes := t.nodes[x := n], next := t.next[x := nx])
  }

  lemma Unallocated(t: Tree, lv: seq<seq<nat>>, x: nat)
    requires TreeOk(t, lv) && x !in t.nodes
    ensures Fresh(lv, x)
  {
    forall L | 0 <= L < |lv| ensures x !in lv[L] { LevelFacts(t, lv, L); }
  }

  /** Preparing such a node is invisible. */
  lemma Prepare(t: Tree, lv: seq<seq<nat>>, x: nat, n: Node, nx: Option<nat>)
    requires TreeOk(t, lv) && Fresh(lv, x)
    ensures TreeOk(AddNode(t, x, n, nx), lv)
    ensures forall L :: 0 <= L < |lv| ==>
      In(t.nodes, lv[L]) && In(AddNode(t, x, n, nx).nodes, lv[L])
      && View(AddNode(t, x, n, nx).nodes, lv[L]) == View(t.nodes, lv[L])
  {
    var t' := AddNode(t, x, n, nx);
    forall L | 0 <= L < |lv|
      ensures LevelOk(t', lv[L], L) && In(t.nodes, lv[L]) && View(t'.nodes, lv[L]) == View(t.nodes, lv[L])
    {
      PrepareLevel(t, lv, L, x, n, nx);
    }
    hide LevelOk, ParentsOk;
    forall L | 0 < L < |lv| ensures ParentsOk(View(t'.nodes, lv[L]), View(t'.nodes, lv[L - 1]), lv[L - 1]) {
      LevelFacts(t, lv, L);
    }
  }

  lemma PrepareLevel(t: Tree, lv: seq<seq<nat>>, L: nat, x: nat, n: Node, nx: Option<nat>)
    requires TreeOk(t, lv) && Fresh(lv, x) && L < |lv|
    ensures
      var t' := AddNode(t, x, n, nx);
      LevelOk(t', lv[L], L) && In(t.nodes, lv[L]) && View(t'.nodes, lv[L]) == View(t.nodes, lv[L])
  {
    hide RowOk;
    LevelFacts(t, lv, L);
    assert View(AddNode(t, x, n, nx).nodes, lv[L]) == View(t.nodes, lv[L]);
  }

  // ---- linking and unlinking a sibling ----

  lemma ListInserted(next: map<nat, Option<nat>>, p: Option<nat>, l: seq<nat>, i: nat, x: nat)
    requires IsList(next, p, l) && i < |l| && x !in l && x in next && next[x] == PtrAt(l, i + 1)
    ensures IsList(next[l[i] := Some(x)], p, Inserted(l, i + 1, x))
  {
    var r, n := Inserted(l, i + 1, x), next[l[i] := Some(x)];
    forall j: nat | j < |r| ensures r[j] in n && n[r[j]] == PtrAt(r, j + 1) {
      assert r[j] == if j <= i then l[j] else if j == i + 1 then x else l[j - 1];
      if j + 1 < |r| { assert r[j + 1] == if j + 1 <= i then l[j + 1] else if j == i then x else l[j]; }
    }
    forall j: nat, k: nat | j < k < |r| ensures r[j] != r[k] {
      assert r[j] == if j <= i then l[j] else if j == i + 1 then x else l[j - 1];
      assert r[k] == if k <= i then l[k] else if k == i + 1 then x else l[k - 1];
    }
  }

  lemma ListWithout(next: map<nat, Option<nat>>, p: Option<nat>, l: seq<nat>, i: nat)
    requires IsList(next, p, l) && i + 1 < |l|
    ensures IsList(next[l[i] := next[l[i + 1]]], p, Without(l, i + 1))
  {
    var r, n := Without(l, i + 1), next[l[i] := next[l[i + 1]]];
    forall j: nat | j < |r| ensures r[j] in n && n[r[j]] == PtrAt(r, j + 1) {
      assert r[j] == if j <= i then l[j] else l[j + 1];
      if j + 1 < |r| { assert r[j + 1] == if j + 1 <= i then l[j + 1] else l[j + 2]; }
    }
    forall j: nat, k: nat | j < k < |r| ensures r[j] != r[k] {
      assert r[j] == (if j <= i then l[j] else l[j + 1]) && r[k] == (if k <= i then l[k] else l[k + 1]);
    }
  }

  function SetNext(t: Tree, x: nat, nx: Option<nat>): Tree { t.(next := t.next[x := nx]) }

  /** An inner node's tail holds only visible children, so a sibling may take them over. */
  lemma LinkParents(up: seq<Node>, i: nat, r: Node, ns: seq<Node>, ids: seq<nat>, L: nat)
    requires RowOk(up, L) && L > 0 && ParentsOk(up, ns, ids) && i < |up| && TakesOver(up[i], r, FenceOf(up, i))
    ensures ParentsOk(Inserted(up, i + 1, r), ns, ids)
  {
    hide RowOk, TakesOver, ParentAt;
    var up' := Inserted(up, i + 1, r);
    forall j: nat | j < |up'| ensures ParentAt(up'[j], FenceOf(up', j), ns, ids) {
      LinkedAt(up, i, r, j);
      if j == i + 1 {
        LinkParent(up, i, r, ns, ids, L);
      } else {
        assert ParentAt(up[Was(i, j)], FenceOf(up, Was(i, j)), ns, ids);
        if j == i { LowerFence(up[i], r.low, FenceOf(up, i), ns, ids, r); }
      }
    }
  }

  lemma LowerFence(n: Node, x: nat, fence: Option<nat>, ns: seq<Node>, ids: seq<nat>, r: Node)
    requires ParentAt(n, fence, ns, ids) && TakesOver(n, r, fence) && x == r.low
    ensures ParentAt(n, Some(x), ns, ids)
  {
    hide HasChild, Tail, Content;
  }

  lemma LinkParent(up: seq<Node>, i: nat, r: Node, ns: seq<Node>, ids: seq<nat>, L: nat)
    requires RowOk(up, L) && L > 0 && ParentsOk(up, ns, ids) && i < |up| && TakesOver(up[i], r, FenceOf(up, i))
    ensures ParentAt(r, FenceOf(up, i), ns, ids)
  {
    NodeAtLevel(up, L, i);
    TakesOverFacts(up[i], r, FenceOf(up, i));
    assert ParentAt(up[i], FenceOf(up, i), ns, ids);
    assert Under(up[i], FenceOf(up, i)) && r.level == L;
    hide RowOk, TakesOver, HasChild, ParentsOk, PairOk, Tail;
    assert Content(r)[0] == Slot(r.low, r.leftmost);
    assert HasChild(ns, ids, r.leftmost, r.low) by { ListedChild(up[i], FenceOf(up, i), ns, ids, Content(r)[0]); }
    forall j | 0 <= j < |Listed(r)| ensures HasChild(ns, ids, Listed(r)[j].value, Listed(r)[j].key) {
      ListedInContent(r, j);
      ListedChild(up[i], FenceOf(up, i), ns, ids, Listed(r)[j]);
    }
  }

  lemma ListedChild(n: Node, fence: Option<nat>, ns: seq<Node>, ids: seq<nat>, e: Slot)
    requires ParentAt(n, fence, ns, ids) && Under(n, fence) && e in Listed(n)
    ensures HasChild(ns, ids, e.value, e.key)
  {
    hide HasChild;
    var j :| 0 <= j < |Listed(n)| && Listed(n)[j] == e;
  }

  /** Linking a prepared sibling into its level. */
  lemma Link(t: Tree, lv: seq<seq<nat>>, L: nat, i: nat, x: nat)
    requires TreeOk(t, lv) && L < |lv| && i < |lv[L]| && In(t.nodes, lv[L]) && CleanAt(View(t.nodes, lv[L]), i)
    requires Fresh(lv, x) && x in t.nodes && x in t.next && t.next[x] == Nth(lv[L], i + 1)
    requires TakesOver(t.nodes[lv[L][i]], t.nodes[x], FenceOf(View(t.nodes, lv[L]), i))
    ensures var t', ids := SetNext(t, lv[L][i], Some(x)), Inserted(lv[L], i + 1, x);
      && TreeOk(t', lv[L := ids]) && In(t'.nodes, ids)
        && View(t'.nodes, ids) == Inserted(View(t.nodes, lv[L]), i + 1, t.nodes[x])
  {
    hide TreeOk, RowOk, TakesOver, CleanAt, ChildrenStay, ParentsOk, ParentAt, OthersStay, LevelOk, IsList;
    var ids, ns, r := lv[L], View(t.nodes, lv[L]), t.nodes[x];
    var t', ids' := SetNext(t, ids[i], Some(x)), Inserted(ids, i + 1, x);
    LevelFacts(t, lv, L);
    assert In(t'.nodes, ids') && View(t'.nodes, ids') == Inserted(ns, i + 1, r) by { LinkedView(t.nodes, ids, i, x); }
    LinkRow(ns, L, i, r);
    LinkChildren(ns, L, i, r, ids, x);
    if L > 0 { LinkParents(ns, i, r, View(t.nodes, lv[L - 1]), lv[L - 1], L); }
    NextStays(t, ids[i], Some(x));
    LinkedList(t, ids, L, i, x);
    LevelChanges(t, t', lv, L, ids');
  }

  function Nth(ids: seq<nat>, i: nat): Option<nat> { PtrAt(ids, i) }

  lemma LinkedView(nodes: map<nat, Node>, ids: seq<nat>, i: nat, x: nat)
    requires In(nodes, ids) && i < |ids| && x in nodes
    ensures In(nodes, Inserted(ids, i + 1, x))
      && View(nodes, Inserted(ids, i + 1, x)) == Inserted(View(nodes, ids), i + 1, nodes[x])
  {
    var ids' := Inserted(ids, i + 1, x);
    forall j: nat | j < |ids'| ensures ids'[j] in nodes { }
  }

  lemma NextStays(t: Tree, x: nat, nx: Option<nat>)
    requires x in t.nodes
    ensures OthersStay(t, SetNext(t, x, nx), t.nodes[x].level)
  {
  }

  lemma LinkedList(t: Tree, ids: seq<nat>, L: nat, i: nat, x: nat)
    requires LevelOk(t, ids, L) && i < |ids| && x !in ids && x in t.next && t.next[x] == Nth(ids, i + 1)
    requires In(t.nodes, Inserted(ids, i + 1, x)) && RowOk(View(t.nodes, Inserted(ids, i + 1, x)), L)
    ensures LevelOk(SetNext(t, ids[i], Some(x)), Inserted(ids, i + 1, x), L) && Inserted(ids, i + 1, x)[0] == ids[0]
  {
    hide RowOk, IsList;
    ListInserted(t.next, Some(ids[0]), ids, i, x);
    assert Inserted(ids, i + 1, x)[0] == ids[0];
  }

  /** Taking a sibling back makes the children it had copied visible in the left node again. */
  lemma DropParents(up: seq<Node>, i: nat, ns: seq<Node>, ids: seq<nat>, L: nat)
    requires RowOk(up, L) && L > 0 && ParentsOk(up, ns, ids) && i + 1 < |up| && !CleanAt(up, i + 1)
    ensures ParentsOk(Without(up, i + 1), ns, ids)
  {
    hide RowOk, CleanAt, ParentAt;
    var up' := Without(up, i + 1);
    forall j: nat | j < |up'| ensures ParentAt(up'[j], FenceOf(up', j), ns, ids) {
      DroppedAt(up, i, j);
      assert ParentAt(up[Once(i, j)], FenceOf(up, Once(i, j)), ns, ids);
      if j == i { DropParent(up, i, ns, ids, L); }
    }
  }

  lemma DropParent(up: seq<Node>, i: nat, ns: seq<Node>, ids: seq<nat>, L: nat)
    requires RowOk(up, L) && L > 0 && ParentsOk(up, ns, ids) && i + 1 < |up| && !CleanAt(up, i + 1)
    ensures ParentAt(up[i], FenceOf(up, i + 1), ns, ids)
  {
    hide RowOk, CleanAt, HasChild, PairOk, Content, Tail, Under, Listed, Rank;
    DropFacts(up, L, i);
    var l, r := up[i], up[i + 1];
    assert ParentAt(l, FenceOf(up, i), ns, ids) && ParentAt(r, FenceOf(up, i + 1), ns, ids);
    hide ParentsOk;
    var q := Rank(Listed(l), r.low);
    RankSplits(Listed(l), r.low);
    forall j | 0 <= j < |Listed(l)| ensures HasChild(ns, ids, Listed(l)[j].value, Listed(l)[j].key) {
      if j >= q {
        TornChild(l, r, FenceOf(up, i + 1), ns, ids, j - q);
      }
    }
  }

  lemma TornChild(l: Node, r: Node, fence: Option<nat>, ns: seq<Node>, ids: seq<nat>, j: nat)
    requires Tail(Listed(l), r.low) == Content(r) && Under(r, fence) && ParentAt(r, fence, ns, ids) && r.level > 0
    requires j < |Listed(l)| - Rank(Listed(l), r.low)
    ensures var e := Listed(l)[Rank(Listed(l), r.low) + j]; HasChild(ns, ids, e.value, e.key)
  {
    hide HasChild;
    var e := Listed(l)[Rank(Listed(l), r.low) + j];
    assert Tail(Listed(l), r.low)[j] == e;
    if j > 0 { assert e == Listed(r)[j - 1]; }
  }

  /** Taking back a sibling whose left neighbour was never cut. */
  lemma Unlink(t: Tree, lv: seq<seq<nat>>, L: nat, i: nat)
    requires TreeOk(t, lv) && L < |lv| && i + 1 < |lv[L]| && In(t.nodes, lv[L]) && !CleanAt(View(t.nodes, lv[L]), i + 1)
    ensures lv[L][i + 1] in t.next
    ensures var t', ids := SetNext(t, lv[L][i], t.next[lv[L][i + 1]]), Without(lv[L], i + 1);
      && TreeOk(t', lv[L := ids]) && In(t'.nodes, ids) && View(t'.nodes, ids) == Without(View(t.nodes, lv[L]), i + 1)
  {
    hide TreeOk, RowOk, CleanAt, ChildrenStay, ParentsOk, ParentAt, OthersStay, IsList;
    var ids, ns := lv[L], View(t.nodes, lv[L]);
    LevelFacts(t, lv, L);
    NextKnown(t, ids, i + 1);
    var t', ids' := SetNext(t, ids[i], t.next[ids[i + 1]]), Without(ids, i + 1);
    assert In(t'.nodes, ids') && View(t'.nodes, ids') == Without(ns, i + 1) by { DroppedView(t.nodes, ids, i); }
    DropRow(ns, L, i);
    DropChildren(ns, L, i, ids);
    if L > 0 { DropParents(ns, i, View(t.nodes, lv[L - 1]), lv[L - 1], L); }
    NextStays(t, ids[i], t.next[ids[i + 1]]);
    ListWithout(t.next, Some(ids[0]), ids, i);
    assert ids'[0] == ids[0];
    LevelChanges(t, t', lv, L, ids');
  }

  lemma NextKnown(t: Tree, ids: seq<nat>, j: nat)
    requires ids != [] && IsList(t.next, Some(ids[0]), ids) && j < |ids|
    ensures ids[j] in t.next && t.next[ids[j]] == Nth(ids, j + 1)
  {
  }

  lemma DroppedView(nodes: map<nat, Node>, ids: seq<nat>, i: nat)
    requires In(nodes, ids) && i + 1 < |ids|
    ensures In(nodes, Without(ids, i + 1)) && View(nodes, Without(ids, i + 1)) == Without(View(nodes, ids), i + 1)
  {
    var ids' := Without(ids, i + 1);
    forall j: nat | j < |ids'| ensures ids'[j] in nodes { }
  }

  // ---- a new root ----

  /** n is a root above the first two nodes of a level. */
  ghost predicate RootOver(n: Node, L: nat, ns: seq<Node>, ids: seq<nat>) {
    && NodeOk(n) && n.level == L && n.low == 0 && |ids| == |ns| >= 2 && n.leftmost == ids[0]
    && Listed(n) == [Slot(ns[1].low, ids[1])]
  }

  lemma RootRow(n: Node, L: nat, ns: seq<Node>, ids: seq<nat>)
    requires L > 0 && RowOk(ns, L - 1) && RootOver(n, L, ns, ids) && CleanAt(ns, 1)
    ensures RowOk([n], L) && ParentsOk([n], ns, ids)
  {
    NodeAtLevel(ns, L - 1, 0);
    assert IsChild(ns, ids, ids[0], 0, 0) && IsChild(ns, ids, ids[1], ns[1].low, 1);
    hide RowOk;
    assert ns[0].low == 0 by { RowStarts(ns, L - 1); }
    hide PairOk, CleanAt;
    assert Listed(n)[0] == Slot(ns[1].low, ids[1]);
    assert HasChild(ns, ids, n.leftmost, n.low) && HasChild(ns, ids, ids[1], ns[1].low);
    RootRowOk(n, L);
  }

  lemma RowStarts(ns: seq<Node>, L: nat)
    requires RowOk(ns, L)
    ensures ns != [] && ns[0].low == 0
  {
  }

  lemma RootRowOk(n: Node, L: nat)
    requires NodeOk(n) && n.level == L && n.low == 0 && KeysOk(n)
    ensures RowOk([n], L)
  {
  }

  lemma NewRoot(t: Tree, lv: seq<seq<nat>>, x: nat)
    requires TreeOk(t, lv) && Fresh(lv, x) && x in t.nodes && x in t.next && t.next[x] == None
    requires
      var ids := lv[|lv| - 1];
      In(t.nodes, ids) && RootOver(t.nodes[x], |lv|, View(t.nodes, ids), ids) && CleanAt(View(t.nodes, ids), 1)
    ensures TreeOk(t.(root := x), lv + [[x]])
  {
    hide RowOk, ParentsOk, RootOver, CleanAt, LevelOk;
    var H := |lv| - 1;
    var ids, t', lv' := lv[H], t.(root := x), lv + [[x]];
    LevelFacts(t, lv, H);
    RootRow(t.nodes[x], |lv|, View(t.nodes, ids), ids);
    RootLevel(t', x, |lv|);
    forall L: nat | L < |lv'| ensures LevelOk(t', lv'[L], L) && In(t'.nodes, lv'[L]) {
      if L <= H { LevelFacts(t, lv, L); NextOn(t, lv[L], L); LevelSame(t, t', lv[L], L); }
    }
    forall L | 0 < L < |lv'| ensures ParentsOk(View(t'.nodes, lv'[L]), View(t'.nodes, lv'[L - 1]), lv'[L - 1]) {
      if L <= H { LevelFacts(t, lv, L); assert lv'[L] == lv[L] && lv'[L - 1] == lv[L - 1]; }
    }
  }

  lemma RootLevel(t: Tree, x: nat, L: nat)
    requires x in t.nodes && x in t.next && t.next[x] == None && RowOk([t.nodes[x]], L)
    ensures LevelOk(t, [x], L) && View(t.nodes, [x]) == [t.nodes[x]]
  {
    hide RowOk;
    assert View(t.nodes, [x]) == [t.nodes[x]];
    assert IsList(t.next, Some(x), [x]);
  }
}
