/**
 * What every persisted state of a Masstree with integer keys satisfies, half-finished splits
 * included, and which map it denotes.
 */
module MassTree {
  import opened Common
  import opened CountedStack
  import opened MassNode

  predicate Below(k: nat, fence: Option<nat>) { fence.None? || k < fence.value }

  /** All listed keys are below the fence: the node is not in the middle of a split. */
  predicate Under(n: Node, fence: Option<nat>) { forall j :: 0 <= j < |Listed(n)| ==> Below(Listed(n)[j].key, fence) }

  predicate KeysOk(n: Node) {
    forall j :: 0 <= j < |Listed(n)| ==> if n.level == 0 then n.low <= Listed(n)[j].key else n.low < Listed(n)[j].key
  }

  /** Everything a node lists, with the leftmost child under the node's own fence. */
  function Content(n: Node): seq<Slot> { (if n.level > 0 then [Slot(n.low, n.leftmost)] else []) + Listed(n) }

  // ---- one level, from left to right ----

  predicate NodeAt(n: Node, L: nat) { NodeOk(n) && n.level == L && KeysOk(n) }

  /**
   * Neighbours l and r, with `fence` above r: a node that still lists what its new right sibling has
   * taken over lists exactly that.
   */
  predicate PairOk(l: Node, r: Node, fence: Option<nat>) {
    l.low < r.low
      && (!Under(l, Some(r.low)) ==> Tail(Listed(l), r.low) == Content(r) && |Content(r)| >= 2 && Under(r, fence))
  }

  /** The fence above the i-th node: nothing at or above it is visible in that node. */
  function FenceOf(ns: seq<Node>, i: nat): Option<nat> { if i + 1 < |ns| then Some(ns[i + 1].low) else None }

  /** The fences of a level ascend from 0. */
  ghost predicate RowOk(ns: seq<Node>, L: nat) {
    && ns != [] && ns[0].low == 0
    && (forall i :: 0 <= i < |ns| ==> NodeAt(ns[i], L))
    && forall i :: 0 <= i < |ns| - 1 ==> PairAt(ns, i)
  }

  predicate PairAt(ns: seq<Node>, i: nat)
    requires i + 1 < |ns|
  {
    PairOk(ns[i], ns[i + 1], FenceOf(ns, i + 1))
  }

  /** The left sibling of the i-th node has been cut back to its fence. */
  predicate CleanAt(ns: seq<Node>, i: nat) { 0 < i < |ns| ==> Under(ns[i - 1], Some(ns[i].low)) }

  // ---- parents and children ----

  /** The j-th node of a level is x, has fence k, and may be changed. */
  predicate IsChild(ns: seq<Node>, ids: seq<nat>, x: nat, k: nat, j: nat) {
    j < |ids| == |ns| && ids[j] == x && ns[j].low == k && CleanAt(ns, j)
  }

  ghost predicate HasChild(ns: seq<Node>, ids: seq<nat>, x: nat, k: nat) { exists j: nat :: IsChild(ns, ids, x, k, j) }

  /** The visible children of an inner node are nodes of the level below with the right fences. */
  ghost predicate ParentAt(n: Node, fence: Option<nat>, ns: seq<Node>, ids: seq<nat>) {
    && HasChild(ns, ids, n.leftmost, n.low)
    && forall j :: 0 <= j < |Listed(n)| && Below(Listed(n)[j].key, fence) ==>
      HasChild(ns, ids, Listed(n)[j].value, Listed(n)[j].key)
  }

  ghost predicate ParentsOk(up: seq<Node>, ns: seq<Node>, ids: seq<nat>) {
    forall i :: 0 <= i < |up| ==> ParentAt(up[i], FenceOf(up, i), ns, ids)
  }

  // ---- the whole tree ----

  datatype Tree = Tree(nodes: map<nat, Node>, next: map<nat, Option<nat>>, root: nat)

  predicate In(nodes: map<nat, Node>, ids: seq<nat>) { forall i :: 0 <= i < |ids| ==> ids[i] in nodes }

  function View(nodes: map<nat, Node>, ids: seq<nat>): (ns: seq<Node>)
    requires In(nodes, ids)
    ensures |ns| == |ids| && forall i :: 0 <= i < |ids| ==> ns[i] == nodes[ids[i]]
  {
    seq(|ids|, i requires 0 <= i < |ids| => nodes[ids[i]])
  }

  /** The nodes ids, linked by next, make up level L. */
  ghost predicate LevelOk(t: Tree, ids: seq<nat>, L: nat) {
    ids != [] && IsList(t.next, Some(ids[0]), ids) && In(t.nodes, ids) && RowOk(View(t.nodes, ids), L)
  }

  /** lv lists the nodes of each level, leaves first. */
  ghost predicate TreeOk(t: Tree, lv: seq<seq<nat>>) {
    && |lv| > 0
    && (forall L :: 0 <= L < |lv| ==> LevelOk(t, lv[L], L))
    && (forall L :: 0 < L < |lv| ==> ParentsOk(View(t.nodes, lv[L]), View(t.nodes, lv[L - 1]), lv[L - 1]))
    && t.root == lv[|lv| - 1][0]
  }

  // ---- what a tree denotes ----

  /** Following next while the key is not below the sibling's fence. */
  function Cover(ns: seq<Node>, k: nat, i: nat): (r: nat)
    requires i < |ns|
    ensures i <= r < |ns|
    ensures ns[i].low <= k ==> ns[r].low <= k
    ensures Below(k, FenceOf(ns, r))
    decreases |ns| - i
  {
    if i + 1 < |ns| && ns[i + 1].low <= k then Cover(ns, k, i + 1) else i
  }

  /** The value bound to k: a key is where its fences say it is. */
  function Lookup(ns: seq<Node>, k: nat): Option<nat>
    requires ns != []
  {
    FindIn(Listed(ns[Cover(ns, k, 0)]), k)
  }

  ghost predicate Denotes(t: Tree, lv: seq<seq<nat>>, m: map<nat, nat>) {
    TreeOk(t, lv) && forall k: nat :: Lookup(View(t.nodes, lv[0]), k) == MapAt(m, k)
  }

  function MapAt(m: map<nat, nat>, k: nat): Option<nat> { if k in m then Some(m[k]) else None }

  /** t is a persisted state, possibly in the middle of a split, that stands for the map m. */
  ghost predicate Means(t: Tree, m: map<nat, nat>) { exists lv :: Denotes(t, lv, m) }

  lemma NextHigher(ns: seq<Node>, L: nat, j: nat)
    requires RowOk(ns, L) && j + 1 < |ns|
    ensures ns[j].low < ns[j + 1].low
  {
    assert PairAt(ns, j);
    hide NodeAt;
  }

  lemma {:induction false} FencesAscend(ns: seq<Node>, L: nat, i: nat, j: nat)
    requires RowOk(ns, L) && i < j < |ns|
    ensures ns[i].low < ns[j].low
    decreases j - i
  {
    hide RowOk;
    NextHigher(ns, L, j - 1);
    if i < j - 1 { FencesAscend(ns, L, i, j - 1); }
  }

  /** There is only one node whose fences enclose k. */
  lemma CoverIs(ns: seq<Node>, L: nat, k: nat, i: nat, r: nat)
    requires RowOk(ns, L) && i < |ns| && r < |ns| && ns[i].low <= k && ns[r].low <= k && Below(k, FenceOf(ns, r))
    ensures Cover(ns, k, i) == r
  {
    hide RowOk, Cover;
    var q := Cover(ns, k, i);
    if q + 1 < r { FencesAscend(ns, L, q + 1, r); } else if r + 1 < q { FencesAscend(ns, L, r + 1, q); }
  }

  /** An untruncated node: the keys from the fence on are exactly the tail. */
  lemma UnderMeans(n: Node, x: nat)
    requires NodeOk(n)
    ensures Under(n, Some(x)) <==> Tail(Listed(n), x) == []
    ensures Under(n, Some(x)) <==> Rank(Listed(n), x) == |Listed(n)|
  {
    var s, r := Listed(n), Rank(Listed(n), x);
    RankSplits(s, x);
    if r < |s| { assert !Below(s[r].key, Some(x)); }
  }
}
