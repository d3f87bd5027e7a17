/** The stores of an insertion seen on one level of the tree. */
module MassRows {
  import opened Common
  import opened MassNode
  import opened MassTree

  predicate SamePlace(n: Node, n': Node) { n'.level == n.level && n'.leftmost == n.leftmost && n'.low == n.low }

  /** n' may stand for n: what its right sibling may have taken over is untouched. */
  ghost predicate Keeps(n: Node, n': Node, fence: Option<nat>) {
    && NodeAt(n', n.level) && SamePlace(n, n')
    && (Under(n, fence) ==> Under(n', fence))
    && (!Under(n', fence) && fence.Some? ==> Tail(Listed(n'), fence.value) == Tail(Listed(n), fence.value))
  }

  /** Whatever was a child in the old level is one in the new. */
  ghost predicate ChildrenStay(ns: seq<Node>, ids: seq<nat>, ns': seq<Node>, ids': seq<nat>) {
    forall x: nat, k: nat :: HasChild(ns, ids, x, k) ==> HasChild(ns', ids', x, k)
  }

  // ---- replacing one node ----

  lemma PairLeft(l: Node, l': Node, r: Node, fence: Option<nat>)
    requires PairOk(l, r, fence) && Keeps(l, l', Some(r.low))
    ensures PairOk(l', r, fence)
  {
  }

  lemma PairRight(l: Node, r: Node, fence: Option<nat>, r': Node, fence': Option<nat>)
    requires PairOk(l, r, fence) && Under(l, Some(r.low)) && r'.low == r.low
    ensures PairOk(l, r', fence')
  {
  }

  lemma ReplaceRow(ns: seq<Node>, L: nat, i: nat, n': Node)
    requires RowOk(ns, L) && i < |ns| && CleanAt(ns, i) && Keeps(ns[i], n', FenceOf(ns, i))
    ensures RowOk(ns[i := n'], L)
    ensures forall j: nat :: CleanAt(ns, j) ==> CleanAt(ns[i := n'], j)
  {
    hide Under, Listed, Keeps, NodeAt, PairOk, Tail, Content;
    var ns' := ns[i := n'];
    assert NodeAt(ns[i], L);
    KeepsFacts(ns[i], n', FenceOf(ns, i), L);
    if i + 1 < |ns| { assert PairAt(ns, i); PairLeft(ns[i], n', ns[i + 1], FenceOf(ns, i + 1)); }
    if i > 0 { assert PairAt(ns, i - 1); PairRight(ns[i - 1], ns[i], FenceOf(ns, i), n', FenceOf(ns', i)); }
    forall j: nat | j + 1 < |ns| ensures PairAt(ns', j) {
      assert PairAt(ns, j);
      assert FenceOf(ns', j + 1) == FenceOf(ns, j + 1);
    }
  }

  lemma KeepsFacts(n: Node, n': Node, fence: Option<nat>, L: nat)
    requires NodeAt(n, L) && Keeps(n, n', fence)
    ensures NodeAt(n', L) && n'.low == n.low && (Under(n, fence) ==> Under(n', fence))
  {
  }

  lemma ReplaceChildren(ns: seq<Node>, L: nat, i: nat, n': Node, ids: seq<nat>)
    requires RowOk(ns, L) && i < |ns| && CleanAt(ns, i) && Keeps(ns[i], n', FenceOf(ns, i))
    ensures ChildrenStay(ns, ids, ns[i := n'], ids)
  {
    ReplaceRow(ns, L, i, n');
    assert n'.low == ns[i].low;
    hide RowOk, CleanAt, Keeps;
    forall x: nat, k: nat | HasChild(ns, ids, x, k) ensures HasChild(ns[i := n'], ids, x, k) {
      var j: nat :| IsChild(ns, ids, x, k, j);
      assert IsChild(ns[i := n'], ids, x, k, j);
    }
  }

  lemma {:induction false} CoverSame(ns: seq<Node>, ns': seq<Node>, k: nat, i: nat)
    requires |ns'| == |ns| && i < |ns| && forall j :: 0 <= j < |ns| ==> ns'[j].low == ns[j].low
    ensures Cover(ns', k, i) == Cover(ns, k, i)
    decreases |ns| - i
  {
    if i + 1 < |ns| { CoverSame(ns, ns', k, i + 1); }
  }

  /** A changed leaf affects only the keys between its fences. */
  lemma LookupReplaced(ns: seq<Node>, i: nat, n': Node, k: nat)
    requires i < |ns| && n'.low == ns[i].low
    ensures Lookup(ns[i := n'], k) == if Cover(ns, k, 0) == i then FindIn(Listed(n'), k) else Lookup(ns, k)
  {
    CoverSame(ns, ns[i := n'], k, 0);
  }

  // ---- linking a new right sibling ----

  /** r takes over the upper part of l. */
  ghost predicate TakesOver(l: Node, r: Node, fence: Option<nat>) {
    && NodeOk(l) && NodeOk(r) && r.level == l.level && l.low < r.low && Below(r.low, fence) && Under(l, fence)
    && Tail(Listed(l), r.low) == Content(r) && |Content(r)| >= 2
  }

  /** The j-th entry of a tail. */
  lemma TailAt(s: seq<Slot>, x: nat, j: nat)
    requires Ascending(s) && j < |Tail(s, x)|
    ensures Tail(s, x)[j] in s && Tail(s, x)[j].key >= x && (j > 0 ==> Tail(s, x)[j].key > x)
  {
    var q := Rank(s, x);
    RankSplits(s, x);
    assert Tail(s, x)[j] == s[q + j];
    if j > 0 { assert s[q].key < s[q + j].key; }
  }

  lemma ListedInContent(r: Node, j: nat)
    requires j < |Listed(r)|
    ensures var d := if r.level > 0 then 1 else 0; |Content(r)| == |Listed(r)| + d && Content(r)[j + d] == Listed(r)[j]
  {
  }

  lemma TakesOverFacts(l: Node, r: Node, fence: Option<nat>)
    requires TakesOver(l, r, fence)
    ensures NodeAt(r, l.level) && Under(r, fence) && l.low < r.low && Below(r.low, fence) && PairOk(l, r, fence)
    ensures forall j :: 0 <= j < |Content(r)| ==> Content(r)[j] in Listed(l)
  {
    hide Tail, Content, Rank;
    forall j | 0 <= j < |Listed(r)|
      ensures Below(Listed(r)[j].key, fence)
        && if r.level == 0 then r.low <= Listed(r)[j].key else r.low < Listed(r)[j].key
    {
      ListedInContent(r, j);
      TailAt(Listed(l), r.low, if r.level > 0 then j + 1 else j);
    }
    forall j | 0 <= j < |Content(r)| ensures Content(r)[j] in Listed(l) { TailAt(Listed(l), r.low, j); }
  }

  /** Where the j-th node of the new level stood in the old one. */
  function Was(i: nat, j: nat): nat { if j <= i then j else j - 1 }

  lemma LinkedAt(ns: seq<Node>, i: nat, r: Node, j: nat)
    requires i < |ns| && j <= |ns|
    ensures var ns' := Inserted(ns, i + 1, r);
      && ns'[j] == (if j == i + 1 then r else ns[Was(i, j)])
      && FenceOf(ns', j) == (if j == i then Some(r.low) else FenceOf(ns, Was(i, j)))
  {
  }

  lemma LinkRow(ns: seq<Node>, L: nat, i: nat, r: Node)
    requires RowOk(ns, L) && i < |ns| && CleanAt(ns, i) && TakesOver(ns[i], r, FenceOf(ns, i))
    ensures RowOk(Inserted(ns, i + 1, r), L)
  {
    hide Under, Listed, TakesOver, NodeAt, PairOk, Tail, Content;
    var ns' := Inserted(ns, i + 1, r);
    TakesOverFacts(ns[i], r, FenceOf(ns, i));
    assert ns[i].level == L by { NodeAtLevel(ns, L, i); }
    forall j: nat | j < |ns'| ensures NodeAt(ns'[j], L) {
      LinkedAt(ns, i, r, j);
      assert NodeAt(ns[Was(i, if j == i + 1 then i else j)], L);
    }
    forall j: nat | j + 1 < |ns'| ensures PairAt(ns', j) { LinkPair(ns, L, i, r, j); }
    LinkedAt(ns, i, r, 0);
  }

  lemma LinkClean(ns: seq<Node>, L: nat, i: nat, r: Node, j: nat)
    requires RowOk(ns, L) && i < |ns| && TakesOver(ns[i], r, FenceOf(ns, i)) && j <= |ns| && j != i + 1
      && CleanAt(ns, Was(i, j))
    ensures CleanAt(Inserted(ns, i + 1, r), j)
  {
    hide Under, Listed, TakesOver, NodeAt, PairOk, Tail, Content;
    TakesOverFacts(ns[i], r, FenceOf(ns, i));
    LinkedAt(ns, i, r, j);
    if j > 0 { LinkedAt(ns, i, r, j - 1); }
  }

  lemma NodeAtLevel(ns: seq<Node>, L: nat, i: nat)
    requires RowOk(ns, L) && i < |ns|
    ensures ns[i].level == L && NodeAt(ns[i], L) && (i + 1 < |ns| ==> PairAt(ns, i))
  {
    hide Under, Listed, PairOk;
    assert NodeAt(ns[i], L);
  }

  lemma LinkPair(ns: seq<Node>, L: nat, i: nat, r: Node, j: nat)
    requires RowOk(ns, L) && i < |ns| && CleanAt(ns, i) && TakesOver(ns[i], r, FenceOf(ns, i)) && j < |ns|
    ensures PairAt(Inserted(ns, i + 1, r), j)
  {
    hide Under, Listed, TakesOver, NodeAt, PairOk, Tail, Content;
    TakesOverFacts(ns[i], r, FenceOf(ns, i));
    LinkedAt(ns, i, r, j);
    LinkedAt(ns, i, r, j + 1);
    if j == i {
    } else if j == i + 1 {
      PairOfUnder(r, ns[i + 1], FenceOf(ns, i + 1));
    } else {
      var w := Was(i, j);
      assert PairAt(ns, w);
      if w + 1 == i { PairRight(ns[i - 1], ns[i], FenceOf(ns, i), ns[i], Some(r.low)); }
    }
  }

  lemma PairOfUnder(l: Node, r: Node, fence: Option<nat>)
    requires l.low < r.low && Under(l, Some(r.low))
    ensures PairOk(l, r, fence)
  {
  }

  lemma LinkChildren(ns: seq<Node>, L: nat, i: nat, r: Node, ids: seq<nat>, rid: nat)
    requires RowOk(ns, L) && i < |ns| == |ids| && CleanAt(ns, i) && TakesOver(ns[i], r, FenceOf(ns, i))
    ensures ChildrenStay(ns, ids, Inserted(ns, i + 1, r), Inserted(ids, i + 1, rid))
  {
    hide RowOk, CleanAt, TakesOver;
    forall x: nat, k: nat | HasChild(ns, ids, x, k)
      ensures HasChild(Inserted(ns, i + 1, r), Inserted(ids, i + 1, rid), x, k)
    {
      var j: nat :| IsChild(ns, ids, x, k, j);
      var j' := if j <= i then j else j + 1;
      LinkClean(ns, L, i, r, j');
      assert IsChild(Inserted(ns, i + 1, r), Inserted(ids, i + 1, rid), x, k, j');
    }
  }

  /** Linking the sibling changes no lookup. */
  lemma LookupLinked(ns: seq<Node>, L: nat, i: nat, r: Node, k: nat)
    requires RowOk(ns, L) && i < |ns| && CleanAt(ns, i) && TakesOver(ns[i], r, FenceOf(ns, i)) && L == 0
    ensures Lookup(Inserted(ns, i + 1, r), k) == Lookup(ns, k)
  {
    hide Under, Listed, NodeAt, PairOk, Tail, Content, FindIn;
    var ns', q := Inserted(ns, i + 1, r), Cover(ns, k, 0);
    LinkRow(ns, L, i, r);
    NodeAtLevel(ns, L, i);
    LeafContent(r);
    FindTail(Listed(ns[i]), r.low, k);
    CoverLinked(ns, L, i, r, k);
    LinkedAt(ns, i, r, Cover(ns', k, 0));
  }

  lemma LeafContent(r: Node)
    requires r.level == 0
    ensures Content(r) == Listed(r)
  {
  }

  // ---- taking back a sibling ----

  /** Where the j-th node of the shorter level stood in the longer one. */
  function Once(i: nat, j: nat): nat { if j <= i then j else j + 1 }

  lemma DroppedAt(ns: seq<Node>, i: nat, j: nat)
    requires i + 1 < |ns| && j < |ns| - 1
    ensures var ns' := Without(ns, i + 1);
      && ns'[j] == ns[Once(i, j)]
      && FenceOf(ns', j) == (if j == i then FenceOf(ns, i + 1) else FenceOf(ns, Once(i, j)))
  {
  }

  /** A node in the middle of a split lists what its sibling holds. */
  lemma TornFacts(l: Node, r: Node, fence: Option<nat>)
    requires PairOk(l, r, fence) && NodeOk(l) && !Under(l, Some(r.low)) && Below(r.low, fence)
    ensures Tail(Listed(l), r.low) == Content(r) && |Content(r)| >= 2 && Under(r, fence) && Under(l, fence)
  {
    var s, q := Listed(l), Rank(Listed(l), r.low);
    RankSplits(s, r.low);
    forall j | 0 <= j < |s| ensures Below(s[j].key, fence) {
      if j >= q { TornEntry(l, r, fence, j - q); }
    }
  }

  lemma TornEntry(l: Node, r: Node, fence: Option<nat>, j: nat)
    requires Tail(Listed(l), r.low) == Content(r) && Under(r, fence) && Below(r.low, fence) && j < |Content(r)|
    ensures Listed(l)[Rank(Listed(l), r.low) + j] == Content(r)[j] && Below(Content(r)[j].key, fence)
  {
    var d := if r.level > 0 then 1 else 0;
    assert Tail(Listed(l), r.low)[j] == Listed(l)[Rank(Listed(l), r.low) + j];
    if j >= d { assert Content(r)[j] == Listed(r)[j - d]; }
  }

  lemma DropRow(ns: seq<Node>, L: nat, i: nat)
    requires RowOk(ns, L) && i + 1 < |ns| && !CleanAt(ns, i + 1)
    ensures RowOk(Without(ns, i + 1), L)
  {
    hide Under, Listed, NodeAt, PairOk, Tail, Content;
    var ns' := Without(ns, i + 1);
    forall j: nat | j < |ns'| ensures NodeAt(ns'[j], L) { DroppedAt(ns, i, j); assert NodeAt(ns[Once(i, j)], L); }
    forall j: nat | j + 1 < |ns'| ensures PairAt(ns', j) { DropPair(ns, L, i, j); }
    DroppedAt(ns, i, 0);
  }

  lemma DropFacts(ns: seq<Node>, L: nat, i: nat)
    requires RowOk(ns, L) && i + 1 < |ns| && !CleanAt(ns, i + 1)
    ensures NodeOk(ns[i]) && NodeOk(ns[i + 1]) && ns[i].level == ns[i + 1].level == L && ns[i].low < ns[i + 1].low
    ensures PairOk(ns[i], ns[i + 1], FenceOf(ns, i + 1)) && Below(ns[i + 1].low, FenceOf(ns, i + 1))
    ensures Tail(Listed(ns[i]), ns[i + 1].low) == Content(ns[i + 1]) && |Content(ns[i + 1])| >= 2
    ensures Under(ns[i + 1], FenceOf(ns, i + 1)) && Under(ns[i], FenceOf(ns, i + 1))
    ensures CleanAt(ns, i)
  {
    hide Listed, Tail, Content, NodeOk;
    NodeAtLevel(ns, L, i);
    NodeAtLevel(ns, L, i + 1);
    if i > 0 { NodeAtLevel(ns, L, i - 1); }
    TornFacts(ns[i], ns[i + 1], FenceOf(ns, i + 1));
  }

  lemma DropPair(ns: seq<Node>, L: nat, i: nat, j: nat)
    requires RowOk(ns, L) && i + 1 < |ns| && !CleanAt(ns, i + 1) && j + 2 < |ns|
    ensures PairAt(Without(ns, i + 1), j)
  {
    hide Under, Listed, NodeAt, PairOk, Tail, Content;
    DropFacts(ns, L, i);
    DroppedAt(ns, i, j);
    DroppedAt(ns, i, j + 1);
    if j == i {
      PairOfUnder(ns[i], ns[i + 2], FenceOf(ns, i + 2));
    } else {
      assert PairAt(ns, Once(i, j));
      if j + 1 == i { PairRight(ns[i - 1], ns[i], FenceOf(ns, i), ns[i], FenceOf(ns, i + 1)); }
    }
  }

  lemma DropClean(ns: seq<Node>, L: nat, i: nat, j: nat)
    requires RowOk(ns, L) && i + 1 < |ns| && !CleanAt(ns, i + 1) && j < |ns| && j != i + 1 && CleanAt(ns, j)
    ensures CleanAt(Without(ns, i + 1), Was(i, j))
  {
    hide Under, Listed, NodeAt, PairOk, Tail, Content;
    DropFacts(ns, L, i);
    var j' := Was(i, j);
    DroppedAt(ns, i, j');
    if j' > 0 { DroppedAt(ns, i, j' - 1); }
  }

  lemma DropChildren(ns: seq<Node>, L: nat, i: nat, ids: seq<nat>)
    requires RowOk(ns, L) && i + 1 < |ns| == |ids| && !CleanAt(ns, i + 1)
    ensures ChildrenStay(ns, ids, Without(ns, i + 1), Without(ids, i + 1))
  {
    hide RowOk, CleanAt;
    forall x: nat, k: nat | HasChild(ns, ids, x, k) ensures HasChild(Without(ns, i + 1), Without(ids, i + 1), x, k) {
      var j: nat :| IsChild(ns, ids, x, k, j);
      var j' := Was(i, j);
      DropClean(ns, L, i, j);
      assert IsChild(Without(ns, i + 1), Without(ids, i + 1), x, k, j');
    }
  }

  /** Taking the sibling back changes no lookup either. */
  lemma LookupDropped(ns: seq<Node>, L: nat, i: nat, k: nat)
    requires RowOk(ns, L) && i + 1 < |ns| && !CleanAt(ns, i + 1) && L == 0
    ensures Lookup(Without(ns, i + 1), k) == Lookup(ns, k)
  {
    hide Under, Listed, NodeAt, PairOk, Tail, Content, FindIn;
    var ns', q := Without(ns, i + 1), Cover(ns, k, 0);
    DropRow(ns, L, i);
    DropFacts(ns, L, i);
    LeafContent(ns[i + 1]);
    FindTail(Listed(ns[i]), ns[i + 1].low, k);
    var q' := Was(i, q);
    DroppedAt(ns, i, q');
    CoverIs(ns', L, k, 0, q');
  }

  // ---- which nodes on the way to a key may be changed ----

  lemma CoverLinked(ns: seq<Node>, L: nat, i: nat, r: Node, k: nat)
    requires RowOk(ns, L) && i < |ns| && CleanAt(ns, i) && TakesOver(ns[i], r, FenceOf(ns, i))
    ensures
      var ns', q := Inserted(ns, i + 1, r), Cover(ns, k, 0);
      Cover(ns', k, 0) == if q < i || (q == i && k < r.low) then q else q + 1
  {
    hide Under, Listed, NodeAt, PairOk, Tail, Content;
    var ns', q := Inserted(ns, i + 1, r), Cover(ns, k, 0);
    LinkRow(ns, L, i, r);
    var q' := if q < i || (q == i && k < r.low) then q else q + 1;
    LinkedAt(ns, i, r, q');
    CoverIs(ns', L, k, 0, q');
  }

  lemma LinkOn(ns: seq<Node>, L: nat, i: nat, r: Node, k: nat)
    requires RowOk(ns, L) && i < |ns| && CleanAt(ns, i) && TakesOver(ns[i], r, FenceOf(ns, i))
      && CleanAt(ns, Cover(ns, k, 0))
    ensures var ns' := Inserted(ns, i + 1, r); Cover(ns', k, 0) == i + 1 || CleanAt(ns', Cover(ns', k, 0))
  {
    hide RowOk, TakesOver, CleanAt, Cover;
    CoverLinked(ns, L, i, r, k);
    var ns' := Inserted(ns, i + 1, r);
    var q' := Cover(ns', k, 0);
    if q' != i + 1 { LinkClean(ns, L, i, r, q'); }
  }

  lemma DropOn(ns: seq<Node>, L: nat, i: nat, k: nat)
    requires RowOk(ns, L) && i + 1 < |ns| && !CleanAt(ns, i + 1) && CleanAt(ns, Cover(ns, k, 0))
    ensures var ns' := Without(ns, i + 1); CleanAt(ns', Cover(ns', k, 0))
  {
    hide Under, Listed, NodeAt, PairOk, Tail, Content;
    var ns', q := Without(ns, i + 1), Cover(ns, k, 0);
    DropRow(ns, L, i);
    DropFacts(ns, L, i);
    DroppedAt(ns, i, Was(i, q));
    CoverIs(ns', L, k, 0, Was(i, q));
    DropClean(ns, L, i, q);
  }
}
