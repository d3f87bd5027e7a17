/** The persisted stores of put and check_for_recovery, and what each does to the map. */
module MassSteps {
  import opened Common
  import opened CountedStack
  import opened MassNode
  import opened MassTree
  import opened MassRows
  import opened MassStores

  // ---- changes of one node ----

  /** The same entries: nothing changes. */
  lemma KeepsSame(n: Node, n': Node, fence: Option<nat>, L: nat)
    requires NodeAt(n, L) && Shaped(n') && Listed(n') == Listed(n) && SamePlace(n, n')
    ensures Keeps(n, n', fence)
  {
  }

  lemma ParentSame(n: Node, n': Node, fence: Option<nat>, ns: seq<Node>, ids: seq<nat>)
    requires ParentAt(n, fence, ns, ids) && Listed(n') == Listed(n) && SamePlace(n, n')
    ensures ParentAt(n', fence, ns, ids)
  {
  }

  /** Cutting a node back to its fence. */
  lemma KeepsFront(n: Node, n': Node, x: nat, L: nat)
    requires NodeAt(n, L) && Shaped(n') && Listed(n') == Front(Listed(n), x) && SamePlace(n, n')
    ensures Keeps(n, n', Some(x)) && Under(n', Some(x))
  {
    RankSplits(Listed(n), x);
    FindTail(Listed(n), x, 0);
  }

  lemma ParentFront(n: Node, n': Node, x: nat, ns: seq<Node>, ids: seq<nat>)
    requires ParentAt(n, Some(x), ns, ids) && Listed(n') == Front(Listed(n), x) && SamePlace(n, n')
    ensures ParentAt(n', Some(x), ns, ids)
  {
    hide HasChild;
    forall j | 0 <= j < |Listed(n')| ensures Listed(n')[j] == Listed(n)[j] { }
  }

  /** e can be inserted into a node with that fence above it. */
  ghost predicate Fits(n: Node, e: Slot, fence: Option<nat>) {
    && Below(e.key, fence) && (if n.level == 0 then n.low <= e.key else n.low < e.key)
    && forall j :: 0 <= j < |Listed(n)| ==> Listed(n)[j].key != e.key
  }

  lemma InsertedTail(s: seq<Slot>, p: nat, e: Slot, r: nat)
    requires p <= r <= |s|
    ensures r + 1 <= |Inserted(s, p, e)| && Inserted(s, p, e)[r + 1..] == s[r..]
  {
    var s' := Inserted(s, p, e);
    forall j: nat | j < |s| - r ensures s'[r + 1..][j] == s[r..][j] { assert s'[r + 1 + j] == s[r + j]; }
  }

  /** Inserting below the fence leaves the tail alone. */
  lemma TailInserted(s: seq<Slot>, e: Slot, x: nat)
    requires Ascending(s) && e.key < x && forall j :: 0 <= j < |s| ==> s[j].key != e.key
    ensures Tail(Inserted(s, Rank(s, e.key), e), x) == Tail(s, x)
  {
    RankInserted(s, e, x);
    RankGrows(s, e.key, x);
    hide Rank, Ascending, Inserted;
    InsertedTail(s, Rank(s, e.key), e, Rank(s, x));
  }

  lemma KeepsInserted(n: Node, n': Node, e: Slot, fence: Option<nat>, L: nat)
    requires NodeAt(n, L) && Shaped(n') && Fits(n, e, fence)
      && Listed(n') == Inserted(Listed(n), Rank(Listed(n), e.key), e) && SamePlace(n, n')
    ensures Keeps(n, n', fence)
  {
    var s, s' := Listed(n), Listed(n');
    InsertSorted(s, e);
    if fence.Some? { TailInserted(s, e, fence.value); }
    hide Tail, Ascending, Rank;
    forall j: nat | j < |s'| ensures s'[j] == e || exists i: nat :: i < |s| && s'[j] == s[i] {
      InsertedFrom(s, Rank(s, e.key), e, j);
    }
    assert KeysOk(n');
    assert Under(n, fence) ==> Under(n', fence);
  }

  lemma InsertedFrom(s: seq<Slot>, r: nat, e: Slot, j: nat)
    requires r <= |s| && j <= |s|
    ensures Inserted(s, r, e)[j] == e || exists i: nat :: i < |s| && Inserted(s, r, e)[j] == s[i]
  {
    if j < r { assert Inserted(s, r, e)[j] == s[j]; } else if j > r { assert Inserted(s, r, e)[j] == s[j - 1]; }
  }

  lemma ParentInserted(n: Node, n': Node, e: Slot, fence: Option<nat>, ns: seq<Node>, ids: seq<nat>)
    requires ParentAt(n, fence, ns, ids) && HasChild(ns, ids, e.value, e.key) && SamePlace(n, n')
    requires Listed(n') == Inserted(Listed(n), Rank(Listed(n), e.key), e)
    ensures ParentAt(n', fence, ns, ids)
  {
    hide HasChild, Rank;
    var s, s' := Listed(n), Listed(n');
    forall j: nat | j < |s'| && Below(s'[j].key, fence) ensures HasChild(ns, ids, s'[j].value, s'[j].key) {
      InsertedFrom(s, Rank(s, e.key), e, j);
    }
  }

  /** Overwriting the value of a visible key. */
  lemma KeepsValue(n: Node, n': Node, j: nat, v: nat, fence: Option<nat>, L: nat)
    requires NodeAt(n, L) && Shaped(n') && SamePlace(n, n') && j < |Listed(n)| && Below(Listed(n)[j].key, fence)
    requires Listed(n') == Listed(n)[j := Slot(Listed(n)[j].key, v)]
    ensures Keeps(n, n', fence)
  {
    var s, s' := Listed(n), Listed(n');
    assert forall i :: 0 <= i < |s| ==> s'[i].key == s[i].key;
    if fence.Some? {
      RankSplits(s, fence.value);
      RankIs(s', fence.value, Rank(s, fence.value));
      assert Tail(s', fence.value) == Tail(s, fence.value);
    }
  }

  lemma FindValue(s: seq<Slot>, j: nat, v: nat, k: nat)
    requires Ascending(s) && j < |s|
    ensures FindIn(s[j := Slot(s[j].key, v)], k) == if k == s[j].key then Some(v) else FindIn(s, k)
  {
    var s' := s[j := Slot(s[j].key, v)];
    RankSplits(s, k);
    RankIs(s', k, Rank(s, k));
    if k == s[j].key { FindIs(s, k, j); }
  }

  /** Removing a visible key. */
  lemma KeepsWithout(n: Node, n': Node, j: nat, fence: Option<nat>, L: nat)
    requires NodeAt(n, L) && Shaped(n') && SamePlace(n, n') && j < |Listed(n)| && Below(Listed(n)[j].key, fence)
    requires Listed(n') == Without(Listed(n), j)
    ensures Keeps(n, n', fence)
  {
    var s, s' := Listed(n), Listed(n');
    AscendingWithout(s, j);
    if fence.Some? { TailWithout(s, j, fence.value); }
    hide Tail, Ascending, Rank, Without, Listed;
    forall i: nat | i < |s'| ensures exists l: nat :: l < |s| && s'[i] == s[l] { FromWithout(s, j, i); }
    assert KeysOk(n');
    assert Under(n, fence) ==> Under(n', fence);
  }

  lemma FromWithout(s: seq<Slot>, j: nat, i: nat)
    requires j < |s| && i < |Without(s, j)|
    ensures exists l: nat :: l < |s| && Without(s, j)[i] == s[l]
  {
    assert Without(s, j)[i] == if i < j then s[i] else s[i + 1];
  }

  lemma AscendingWithout(s: seq<Slot>, j: nat)
    requires Ascending(s) && j < |s|
    ensures Ascending(Without(s, j))
  {
  }

  lemma TailWithout(s: seq<Slot>, j: nat, x: nat)
    requires Ascending(s) && j < |s| && s[j].key < x
    ensures Tail(Without(s, j), x) == Tail(s, x)
  {
    var s', r := Without(s, j), Rank(s, x);
    AscendingWithout(s, j);
    RankSplits(s, x);
    RankIs(s', x, r - 1);
    forall i: nat | i < |s| - r ensures Tail(s', x)[i] == Tail(s, x)[i] { assert s'[r - 1 + i] == s[r + i]; }
  }

  lemma FindWithout(s: seq<Slot>, j: nat, k: nat)
    requires Ascending(s) && j < |s|
    ensures FindIn(Without(s, j), k) == if k == s[j].key then None else FindIn(s, k)
  {
    var s', r := Without(s, j), Rank(s, k);
    assert Ascending(s');
    RankSplits(s, k);
    RankIs(s', k, if r <= j then r else r - 1);
  }

  // ---- the map ----

  /** Every node on the way to q at level L or above may be changed. */
  ghost predicate PathClean(t: Tree, lv: seq<seq<nat>>, q: nat, L: nat) {
    forall K: nat :: L <= K < |lv| ==> CleanOn(t, lv[K], q)
  }

  ghost predicate CleanOn(t: Tree, ids: seq<nat>, q: nat) {
    ids != [] && In(t.nodes, ids) && CleanAt(View(t.nodes, ids), Cover(View(t.nodes, ids), q, 0))
  }

  /** Replacing a node, on the map. */
  lemma ReplaceDenotes(t: Tree, lv: seq<seq<nat>>, m: map<nat, nat>, L: nat, i: nat, n': Node, m': map<nat, nat>)
    requires Denotes(t, lv, m) && L < |lv| && i < |lv[L]| && In(t.nodes, lv[L]) && CleanAt(View(t.nodes, lv[L]), i)
    requires Keeps(t.nodes[lv[L][i]], n', FenceOf(View(t.nodes, lv[L]), i))
    requires L > 0 ==>
      m' == m && In(t.nodes, lv[L - 1])
      && ParentAt(n', FenceOf(View(t.nodes, lv[L]), i), View(t.nodes, lv[L - 1]), lv[L - 1])
    requires L == 0 ==>
      forall k: nat ::
      (if Cover(View(t.nodes, lv[0]), k, 0) == i then FindIn(Listed(n'), k) else MapAt(m, k)) == MapAt(m', k)
    ensures Denotes(SetNode(t, lv[L][i], n'), lv, m')
    ensures forall q: nat, K: nat :: PathClean(t, lv, q, K) ==> PathClean(SetNode(t, lv[L][i], n'), lv, q, K)
  {
    var t' := SetNode(t, lv[L][i], n');
    Replace(t, lv, L, i, n');
    LevelFacts(t, lv, L);
    LevelFacts(t, lv, 0);
    SetStays(t, lv[L][i], n');
    hide TreeOk, RowOk, Keeps, CleanAt, ParentAt, FindIn, LevelOk, ParentsOk;
    if L > 0 {
      LevelStays(t, t', lv, L, 0);
    } else {
      LowKept(t.nodes[lv[L][i]], n', FenceOf(View(t.nodes, lv[L]), i));
      forall k: nat ensures Lookup(View(t'.nodes, lv[0]), k) == MapAt(m', k) {
        LookupReplaced(View(t.nodes, lv[0]), i, n', k);
      }
    }
    forall q: nat, K: nat | PathClean(t, lv, q, K) ensures PathClean(t', lv, q, K) {
      forall J: nat | K <= J < |lv| ensures CleanOn(t', lv[J], q) { ReplaceClean(t, lv, L, i, n', q, J); }
    }
  }

  lemma ReplaceClean(t: Tree, lv: seq<seq<nat>>, L: nat, i: nat, n': Node, q: nat, J: nat)
    requires TreeOk(t, lv) && L < |lv| && i < |lv[L]| && In(t.nodes, lv[L]) && CleanAt(View(t.nodes, lv[L]), i)
    requires Keeps(t.nodes[lv[L][i]], n', FenceOf(View(t.nodes, lv[L]), i))
    requires J < |lv| && CleanOn(t, lv[J], q)
    ensures CleanOn(SetNode(t, lv[L][i], n'), lv[J], q)
  {
    hide TreeOk, RowOk, Keeps, CleanAt, LevelOk, ParentsOk, OthersStay;
    LevelFacts(t, lv, L);
    SetStays(t, lv[L][i], n');
    var t' := SetNode(t, lv[L][i], n');
    if J != L {
      LevelStays(t, t', lv, L, J);
    } else {
      var ns := View(t.nodes, lv[L]);
      LowKept(ns[i], n', FenceOf(ns, i));
      assert View(t'.nodes, lv[L]) == ns[i := n'];
      ReplaceRow(ns, L, i, n');
      CoverSame(ns, ns[i := n'], q, 0);
    }
  }

  // ---- the stores ----

  /** Node i of level L of the tree, with the fence above it. */
  ghost predicate NodeIs(t: Tree, lv: seq<seq<nat>>, L: nat, i: nat, n: Node, fence: Option<nat>) {
    && L < |lv| && i < |lv[L]| && In(t.nodes, lv[L]) && n == t.nodes[lv[L][i]]
      && fence == FenceOf(View(t.nodes, lv[L]), i)
    && CleanAt(View(t.nodes, lv[L]), i)
  }

  lemma NodeFacts(t: Tree, lv: seq<seq<nat>>, L: nat, i: nat, n: Node, fence: Option<nat>)
    requires TreeOk(t, lv) && NodeIs(t, lv, L, i, n, fence)
    ensures NodeAt(n, L) && Below(n.low, fence)
    ensures L > 0 ==> In(t.nodes, lv[L - 1]) && ParentAt(n, fence, View(t.nodes, lv[L - 1]), lv[L - 1])
  {
    hide TreeOk, ParentAt, NodeAt;
    LevelFacts(t, lv, L);
    NodeAtLevel(View(t.nodes, lv[L]), L, i);
  }

  lemma LeafLookup(t: Tree, lv: seq<seq<nat>>, m: map<nat, nat>, i: nat, n: Node, fence: Option<nat>, k: nat)
    requires Denotes(t, lv, m) && NodeIs(t, lv, 0, i, n, fence) && Cover(View(t.nodes, lv[0]), k, 0) == i
    ensures FindIn(Listed(n), k) == MapAt(m, k)
  {
    hide TreeOk;
  }

  /** The leaf between whose fences k lies. */
  lemma LeafCovers(t: Tree, lv: seq<seq<nat>>, i: nat, n: Node, fence: Option<nat>, k: nat)
    requires TreeOk(t, lv) && NodeIs(t, lv, 0, i, n, fence) && n.low <= k && Below(k, fence)
    ensures Cover(View(t.nodes, lv[0]), k, 0) == i
  {
    hide TreeOk, RowOk;
    LevelFacts(t, lv, 0);
    RowStarts(View(t.nodes, lv[0]), 0);
    CoverIs(View(t.nodes, lv[0]), 0, k, 0, i);
  }

  /** Writing an unlisted slot, or any other change that lists the same entries. */
  lemma AssignStep(t: Tree, lv: seq<seq<nat>>, m: map<nat, nat>, L: nat, i: nat, n: Node, fence: Option<nat>, n': Node)
    requires Denotes(t, lv, m) && NodeIs(t, lv, L, i, n, fence) && Shaped(n') && Listed(n') == Listed(n)
      && SamePlace(n, n')
    ensures Denotes(SetNode(t, lv[L][i], n'), lv, m)
    ensures forall q: nat, K: nat :: PathClean(t, lv, q, K) ==> PathClean(SetNode(t, lv[L][i], n'), lv, q, K)
  {
    hide TreeOk, ParentAt, Keeps, NodeAt, CleanAt, PathClean;
    NodeFacts(t, lv, L, i, n, fence);
    KeepsSame(n, n', fence, L);
    if L > 0 { ParentSame(n, n', fence, View(t.nodes, lv[L - 1]), lv[L - 1]); }
    else {
      forall k: nat | Cover(View(t.nodes, lv[0]), k, 0) == i ensures FindIn(Listed(n'), k) == MapAt(m, k) {
        LeafLookup(t, lv, m, i, n, fence, k);
      }
    }
    ReplaceDenotes(t, lv, m, L, i, n', m);
  }

  /** The store that makes a new pair visible in a leaf: the only one that changes the map. */
  lemma PublishStep(t: Tree, lv: seq<seq<nat>>, m: map<nat, nat>, i: nat, n: Node, fence: Option<nat>, n': Node,
        e: Slot)
    requires Denotes(t, lv, m) && NodeIs(t, lv, 0, i, n, fence) && Shaped(n') && SamePlace(n, n') && Fits(n, e, fence)
    requires Listed(n') == Inserted(Listed(n), Rank(Listed(n), e.key), e)
    ensures Denotes(SetNode(t, lv[0][i], n'), lv, m[e.key := e.value])
    ensures forall q: nat, K: nat :: PathClean(t, lv, q, K) ==> PathClean(SetNode(t, lv[0][i], n'), lv, q, K)
  {
    hide TreeOk, ParentAt, Keeps, CleanAt, PathClean, FindIn, Rank;
    NodeFacts(t, lv, 0, i, n, fence);
    KeepsInserted(n, n', e, fence, 0);
    LeafCovers(t, lv, i, n, fence, e.key);
    var m' := m[e.key := e.value];
    forall k: nat | Cover(View(t.nodes, lv[0]), k, 0) == i ensures FindIn(Listed(n'), k) == MapAt(m', k) {
      LeafLookup(t, lv, m, i, n, fence, k);
      FindInserted(Listed(n), e, k);
    }
    ReplaceDenotes(t, lv, m, 0, i, n', m');
  }

  /** Adding a child to an inner node does not change the map. */
  lemma AdoptStep(t: Tree, lv: seq<seq<nat>>, m: map<nat, nat>, L: nat, i: nat, n: Node, fence: Option<nat>, n': Node,
        e: Slot)
    requires Denotes(t, lv, m) && L > 0 && NodeIs(t, lv, L, i, n, fence) && Shaped(n') && SamePlace(n, n')
      && Fits(n, e, fence)
    requires Listed(n') == Inserted(Listed(n), Rank(Listed(n), e.key), e)
    requires In(t.nodes, lv[L - 1]) && HasChild(View(t.nodes, lv[L - 1]), lv[L - 1], e.value, e.key)
    ensures Denotes(SetNode(t, lv[L][i], n'), lv, m)
    ensures forall q: nat, K: nat :: PathClean(t, lv, q, K) ==> PathClean(SetNode(t, lv[L][i], n'), lv, q, K)
  {
    hide TreeOk, ParentAt, Keeps, NodeAt, CleanAt, PathClean, HasChild, Rank;
    NodeFacts(t, lv, L, i, n, fence);
    KeepsInserted(n, n', e, fence, L);
    ParentInserted(n, n', e, fence, View(t.nodes, lv[L - 1]), lv[L - 1]);
    ReplaceDenotes(t, lv, m, L, i, n', m);
  }

  /** Cutting a node back to the fence of its sibling. */
  lemma CutStep(t: Tree, lv: seq<seq<nat>>, m: map<nat, nat>, L: nat, i: nat, n: Node, x: nat, n': Node)
    requires Denotes(t, lv, m) && NodeIs(t, lv, L, i, n, Some(x)) && Shaped(n') && Listed(n') == Front(Listed(n), x)
      && SamePlace(n, n')
    ensures Denotes(SetNode(t, lv[L][i], n'), lv, m)
    ensures forall q: nat, K: nat :: PathClean(t, lv, q, K) ==> PathClean(SetNode(t, lv[L][i], n'), lv, q, K)
    ensures In(SetNode(t, lv[L][i], n').nodes, lv[L]) && CleanAt(View(SetNode(t, lv[L][i], n').nodes, lv[L]), i + 1)
  {
    hide TreeOk, ParentAt, Keeps, PathClean, HasChild, Rank;
    NodeFacts(t, lv, L, i, n, Some(x));
    KeepsFront(n, n', x, L);
    if L > 0 { ParentFront(n, n', x, View(t.nodes, lv[L - 1]), lv[L - 1]); }
    else {
      forall k: nat | Cover(View(t.nodes, lv[0]), k, 0) == i ensures FindIn(Listed(n'), k) == MapAt(m, k) {
        LeafLookup(t, lv, m, i, n, Some(x), k);
        FindTail(Listed(n), x, k);
      }
    }
    ReplaceDenotes(t, lv, m, L, i, n', m);
    LevelFacts(t, lv, L);
  }

  /** Overwriting the value of a key in place. */
  lemma ValueStep(t: Tree, lv: seq<seq<nat>>, m: map<nat, nat>, i: nat, n: Node, fence: Option<nat>, n': Node, j: nat,
        v: nat)
    requires Denotes(t, lv, m) && NodeIs(t, lv, 0, i, n, fence) && Shaped(n') && SamePlace(n, n') && j < |Listed(n)|
      && Below(Listed(n)[j].key, fence)
    requires Listed(n') == Listed(n)[j := Slot(Listed(n)[j].key, v)]
    ensures Denotes(SetNode(t, lv[0][i], n'), lv, m[Listed(n)[j].key := v])
  {
    hide TreeOk, ParentAt, Keeps, CleanAt, FindIn, Rank;
    NodeFacts(t, lv, 0, i, n, fence);
    KeepsValue(n, n', j, v, fence, 0);
    LeafCovers(t, lv, i, n, fence, Listed(n)[j].key);
    var m' := m[Listed(n)[j].key := v];
    forall k: nat | Cover(View(t.nodes, lv[0]), k, 0) == i ensures FindIn(Listed(n'), k) == MapAt(m', k) {
      LeafLookup(t, lv, m, i, n, fence, k);
      FindValue(Listed(n), j, v, k);
    }
    ReplaceDenotes(t, lv, m, 0, i, n', m');
  }

  /** Removing a key in place. */
  lemma RemoveStep(t: Tree, lv: seq<seq<nat>>, m: map<nat, nat>, i: nat, n: Node, fence: Option<nat>, n': Node, j: nat)
    requires Denotes(t, lv, m) && NodeIs(t, lv, 0, i, n, fence) && Shaped(n') && SamePlace(n, n') && j < |Listed(n)|
      && Below(Listed(n)[j].key, fence)
    requires Listed(n') == Without(Listed(n), j)
    ensures Denotes(SetNode(t, lv[0][i], n'), lv, m - {Listed(n)[j].key})
  {
    hide TreeOk, ParentAt, Keeps, CleanAt, FindIn, Rank;
    NodeFacts(t, lv, 0, i, n, fence);
    KeepsWithout(n, n', j, fence, 0);
    LeafCovers(t, lv, i, n, fence, Listed(n)[j].key);
    var m' := m - {Listed(n)[j].key};
    forall k: nat | Cover(View(t.nodes, lv[0]), k, 0) == i ensures FindIn(Listed(n'), k) == MapAt(m', k) {
      LeafLookup(t, lv, m, i, n, fence, k);
      FindWithout(Listed(n), j, k);
    }
    ReplaceDenotes(t, lv, m, 0, i, n', m');
  }

  // ---- stores that change the shape ----

  /** Levels above L are the same, so what was clean there still is. */
  lemma PathAbove(t: Tree, t': Tree, lv: seq<seq<nat>>, L: nat, ids: seq<nat>, q: nat, K: nat)
    requires TreeOk(t, lv) && OthersStay(t, t', L) && L < K && L < |lv| && PathClean(t, lv, q, K)
    ensures PathClean(t', lv[L := ids], q, K)
  {
    hide TreeOk, OthersStay, CleanAt, LevelOk;
    var lv' := lv[L := ids];
    forall J: nat | K <= J < |lv'| ensures CleanOn(t', lv'[J], q) {
      assert CleanOn(t, lv[J], q);
      LevelStays(t, t', lv, L, J);
    }
  }

  /** Linking a prepared right sibling: the map stays. */
  lemma LinkStep(t: Tree, lv: seq<seq<nat>>, m: map<nat, nat>, L: nat, i: nat, n: Node, fence: Option<nat>, x: nat)
    requires Denotes(t, lv, m) && NodeIs(t, lv, L, i, n, fence) && Fresh(lv, x)
    requires x in t.nodes && x in t.next && t.next[x] == Nth(lv[L], i + 1) && TakesOver(n, t.nodes[x], fence)
    ensures var t', lv' := SetNext(t, lv[L][i], Some(x)), lv[L := Inserted(lv[L], i + 1, x)];
      && Denotes(t', lv', m) && NodeIs(t', lv', L, i, n, Some(t.nodes[x].low))
      && lv'[L][i + 1] == x && FenceOf(View(t'.nodes, lv'[L]), i + 1) == fence
      && forall q: nat, K: nat :: K > L && PathClean(t, lv, q, K) ==> PathClean(t', lv', q, K)
  {
    hide TreeOk, TakesOver, PathClean, Under, Lookup, OthersStay, CleanAt;
    var ids' := Inserted(lv[L], i + 1, x);
    var t', lv' := SetNext(t, lv[L][i], Some(x)), lv[L := ids'];
    LinkPlace(t, lv, L, i, n, fence, x);
    LinkLookups(t, lv, L, i, n, fence, x);
    forall q: nat, K: nat | K > L && PathClean(t, lv, q, K) ensures PathClean(t', lv', q, K) {
      PathAbove(t, t', lv, L, ids', q, K);
    }
  }

  lemma LinkPlace(t: Tree, lv: seq<seq<nat>>, L: nat, i: nat, n: Node, fence: Option<nat>, x: nat)
    requires TreeOk(t, lv) && NodeIs(t, lv, L, i, n, fence) && Fresh(lv, x)
    requires x in t.nodes && x in t.next && t.next[x] == Nth(lv[L], i + 1) && TakesOver(n, t.nodes[x], fence)
    ensures var t', lv' := SetNext(t, lv[L][i], Some(x)), lv[L := Inserted(lv[L], i + 1, x)];
      && TreeOk(t', lv') && NodeIs(t', lv', L, i, n, Some(t.nodes[x].low)) && OthersStay(t, t', L)
      && lv'[L][i + 1] == x && In(t'.nodes, lv'[L]) && FenceOf(View(t'.nodes, lv'[L]), i + 1) == fence
  {
    hide TreeOk, TakesOver, Under, OthersStay, RowOk, LevelOk, ParentsOk, CleanAt;
    var ns, r := View(t.nodes, lv[L]), t.nodes[x];
    Link(t, lv, L, i, x);
    LevelFacts(t, lv, L);
    NextStays(t, lv[L][i], Some(x));
    LinkedAt(ns, i, r, i);
    LinkedAt(ns, i, r, i + 1);
    LinkClean(ns, L, i, r, i);
  }

  lemma LinkLookups(t: Tree, lv: seq<seq<nat>>, L: nat, i: nat, n: Node, fence: Option<nat>, x: nat)
    requires TreeOk(t, lv) && NodeIs(t, lv, L, i, n, fence) && Fresh(lv, x)
    requires x in t.nodes && x in t.next && t.next[x] == Nth(lv[L], i + 1) && TakesOver(n, t.nodes[x], fence)
    ensures var t', lv' := SetNext(t, lv[L][i], Some(x)), lv[L := Inserted(lv[L], i + 1, x)];
      && lv[0] != [] && lv'[0] != [] && In(t.nodes, lv[0]) && In(t'.nodes, lv'[0])
      && forall k: nat :: Lookup(View(t'.nodes, lv'[0]), k) == Lookup(View(t.nodes, lv[0]), k)
  {
    hide TreeOk, TakesOver, Under, OthersStay, CleanAt, Lookup;
    var t', lv' := SetNext(t, lv[L][i], Some(x)), lv[L := Inserted(lv[L], i + 1, x)];
    Link(t, lv, L, i, x);
    LevelFacts(t, lv, L);
    LevelFacts(t, lv, 0);
    hide RowOk, LevelOk, ParentsOk;
    if L > 0 {
      NextStays(t, lv[L][i], Some(x));
      LevelStays(t, t', lv, L, 0);
    } else {
      forall k: nat ensures Lookup(View(t'.nodes, lv'[0]), k) == Lookup(View(t.nodes, lv[0]), k) {
        LookupLinked(View(t.nodes, lv[0]), 0, i, t.nodes[x], k);
      }
    }
  }

  /** Taking back a sibling whose left neighbour was never cut: the map stays. */
  lemma UnlinkStep(t: Tree, lv: seq<seq<nat>>, m: map<nat, nat>, L: nat, i: nat, n: Node, x: nat)
    requires Denotes(t, lv, m) && NodeIs(t, lv, L, i, n, Some(x)) && !Under(n, Some(x))
    ensures i + 1 < |lv[L]| && lv[L][i + 1] in t.next
    ensures var t', lv' := SetNext(t, lv[L][i], t.next[lv[L][i + 1]]), lv[L := Without(lv[L], i + 1)];
      && Denotes(t', lv', m)
      && (exists fence :: NodeIs(t', lv', L, i, n, fence) && Under(n, fence) && Below(x, fence))
      && forall q: nat, K: nat :: K >= L && PathClean(t, lv, q, K) ==> PathClean(t', lv', q, K)
  {
    hide TreeOk, PathClean, Under, Lookup, OthersStay;
    UnlinkPlace(t, lv, L, i, n, x);
    UnlinkLookups(t, lv, L, i, n, x);
    var ids' := Without(lv[L], i + 1);
    var t', lv' := SetNext(t, lv[L][i], t.next[lv[L][i + 1]]), lv[L := ids'];
    forall q: nat, K: nat | K >= L && PathClean(t, lv, q, K) ensures PathClean(t', lv', q, K) {
      if K > L { PathAbove(t, t', lv, L, ids', q, K); } else { UnlinkPath(t, lv, L, i, n, x, q); }
    }
  }

  lemma UnlinkPath(t: Tree, lv: seq<seq<nat>>, L: nat, i: nat, n: Node, x: nat, q: nat)
    requires TreeOk(t, lv) && NodeIs(t, lv, L, i, n, Some(x)) && !Under(n, Some(x)) && PathClean(t, lv, q, L)
    requires i + 1 < |lv[L]| && lv[L][i + 1] in t.next
    ensures PathClean(SetNext(t, lv[L][i], t.next[lv[L][i + 1]]), lv[L := Without(lv[L], i + 1)], q, L)
  {
    hide TreeOk, Under, OthersStay, RowOk, LevelOk, ParentsOk;
    var ids' := Without(lv[L], i + 1);
    var t', lv' := SetNext(t, lv[L][i], t.next[lv[L][i + 1]]), lv[L := ids'];
    Unlink(t, lv, L, i);
    LevelFacts(t, lv, L);
    NextStays(t, lv[L][i], t.next[lv[L][i + 1]]);
    PathUp(t, lv, q, L);
    PathAbove(t, t', lv, L, ids', q, L + 1);
    assert CleanOn(t, lv[L], q);
    DropOn(View(t.nodes, lv[L]), L, i, q);
    assert CleanOn(t', ids', q);
    PathDown(t', lv', q, L);
  }

  lemma PathUp(t: Tree, lv: seq<seq<nat>>, q: nat, L: nat)
    requires PathClean(t, lv, q, L)
    ensures PathClean(t, lv, q, L + 1)
  {
  }

  lemma PathDown(t: Tree, lv: seq<seq<nat>>, q: nat, L: nat)
    requires PathClean(t, lv, q, L + 1) && (L < |lv| ==> CleanOn(t, lv[L], q))
    ensures PathClean(t, lv, q, L)
  {
  }

  /** Clean but for the sibling just linked in. */
  ghost predicate AlmostOn(t: Tree, ids: seq<nat>, i: nat, q: nat) {
    ids != [] && In(t.nodes, ids)
      && var ns := View(t.nodes, ids); Cover(ns, q, 0) == i + 1 || CleanAt(ns, Cover(ns, q, 0))
  }

  lemma LinkPath(t: Tree, lv: seq<seq<nat>>, L: nat, i: nat, n: Node, fence: Option<nat>, x: nat, q: nat)
    requires TreeOk(t, lv) && NodeIs(t, lv, L, i, n, fence) && Fresh(lv, x) && PathClean(t, lv, q, L)
    requires x in t.nodes && x in t.next && t.next[x] == Nth(lv[L], i + 1) && TakesOver(n, t.nodes[x], fence)
    ensures var t', ids := SetNext(t, lv[L][i], Some(x)), Inserted(lv[L], i + 1, x);
      AlmostOn(t', ids, i, q) && PathClean(t', lv[L := ids], q, L + 1)
  {
    hide TreeOk, TakesOver, OthersStay, RowOk, LevelOk, ParentsOk;
    var ids' := Inserted(lv[L], i + 1, x);
    var t' := SetNext(t, lv[L][i], Some(x));
    Link(t, lv, L, i, x);
    LevelFacts(t, lv, L);
    NextStays(t, lv[L][i], Some(x));
    PathUp(t, lv, q, L);
    PathAbove(t, t', lv, L, ids', q, L + 1);
    assert CleanOn(t, lv[L], q);
    LinkOn(View(t.nodes, lv[L]), L, i, t.nodes[x], q);
  }

  lemma CutPath(t: Tree, lv: seq<seq<nat>>, L: nat, i: nat, n: Node, x: nat, n': Node, q: nat)
    requires TreeOk(t, lv) && NodeIs(t, lv, L, i, n, Some(x)) && Shaped(n') && Listed(n') == Front(Listed(n), x)
      && SamePlace(n, n')
    requires AlmostOn(t, lv[L], i, q) && PathClean(t, lv, q, L + 1)
    ensures PathClean(SetNode(t, lv[L][i], n'), lv, q, L)
  {
    hide TreeOk, OthersStay, Keeps, RowOk, NodeAt, LevelOk, ParentsOk, Under;
    var t', ns := SetNode(t, lv[L][i], n'), View(t.nodes, lv[L]);
    LevelFacts(t, lv, L);
    NodeAtLevel(ns, L, i);
    KeepsFront(n, n', x, L);
    LowKept(n, n', Some(x));
    SetStays(t, lv[L][i], n');
    PathAbove(t, t', lv, L, lv[L], q, L + 1);
    assert lv[L := lv[L]] == lv;
    ReplaceRow(ns, L, i, n');
    CoverSame(ns, ns[i := n'], q, 0);
    assert View(t'.nodes, lv[L]) == ns[i := n'];
    PathDown(t', lv, q, L);
  }

  /** Keys between the same fences have the same nodes above them. */
  lemma {:induction false} PathRange(t: Tree, lv: seq<seq<nat>>, L: nat, a: nat, b: nat)
    requires TreeOk(t, lv) && L < |lv| && In(t.nodes, lv[L]) && lv[L] != [] && PathClean(t, lv, a, L + 1)
    requires Cover(View(t.nodes, lv[L]), a, 0) == Cover(View(t.nodes, lv[L]), b, 0)
    ensures PathClean(t, lv, b, L + 1)
    decreases |lv| - L
  {
    hide TreeOk;
    if L + 1 < |lv| {
      LevelFacts(t, lv, L + 1);
      hide RowOk, LevelOk, ParentsOk;
      RangeUp(t, lv, L, a, b);
      assert CleanOn(t, lv[L + 1], a);
      PathUp(t, lv, a, L + 1);
      PathRange(t, lv, L + 1, a, b);
      PathDown(t, lv, b, L + 1);
    }
  }

  lemma UnlinkPlace(t: Tree, lv: seq<seq<nat>>, L: nat, i: nat, n: Node, x: nat)
    requires TreeOk(t, lv) && NodeIs(t, lv, L, i, n, Some(x)) && !Under(n, Some(x))
    ensures i + 1 < |lv[L]| && lv[L][i + 1] in t.next
    ensures var t', lv' := SetNext(t, lv[L][i], t.next[lv[L][i + 1]]), lv[L := Without(lv[L], i + 1)];
      && TreeOk(t', lv') && OthersStay(t, t', L)
      && exists fence :: NodeIs(t', lv', L, i, n, fence) && Under(n, fence) && Below(x, fence)
  {
    hide TreeOk, OthersStay;
    var ns := View(t.nodes, lv[L]);
    assert !CleanAt(ns, i + 1);
    Unlink(t, lv, L, i);
    LevelFacts(t, lv, L);
    NextStays(t, lv[L][i], t.next[lv[L][i + 1]]);
    DropFacts(ns, L, i);
    hide RowOk, LevelOk, ParentsOk, Under, PairOk, Tail, Content;
    DropClean(ns, L, i, i);
    DroppedAt(ns, i, i);
    var t', lv' := SetNext(t, lv[L][i], t.next[lv[L][i + 1]]), lv[L := Without(lv[L], i + 1)];
    assert NodeIs(t', lv', L, i, n, FenceOf(ns, i + 1));
  }

  lemma UnlinkLookups(t: Tree, lv: seq<seq<nat>>, L: nat, i: nat, n: Node, x: nat)
    requires TreeOk(t, lv) && NodeIs(t, lv, L, i, n, Some(x)) && !Under(n, Some(x)) && i + 1 < |lv[L]|
      && lv[L][i + 1] in t.next
    ensures var t', lv' := SetNext(t, lv[L][i], t.next[lv[L][i + 1]]), lv[L := Without(lv[L], i + 1)];
      && lv[0] != [] && lv'[0] != [] && In(t.nodes, lv[0]) && In(t'.nodes, lv'[0])
      && forall k: nat :: Lookup(View(t'.nodes, lv'[0]), k) == Lookup(View(t.nodes, lv[0]), k)
  {
    hide TreeOk, OthersStay, Lookup, Under;
    var t', lv' := SetNext(t, lv[L][i], t.next[lv[L][i + 1]]), lv[L := Without(lv[L], i + 1)];
    Unlink(t, lv, L, i);
    LevelFacts(t, lv, L);
    LevelFacts(t, lv, 0);
    hide RowOk, LevelOk, ParentsOk;
    if L > 0 {
      NextStays(t, lv[L][i], t.next[lv[L][i + 1]]);
      LevelStays(t, t', lv, L, 0);
    } else {
      forall k: nat ensures Lookup(View(t'.nodes, lv'[0]), k) == Lookup(View(t.nodes, lv[0]), k) {
        LookupDropped(View(t.nodes, lv[0]), 0, i, k);
      }
    }
  }

  /** Filling a node nobody points to. */
  lemma PrepareStep(t: Tree, lv: seq<seq<nat>>, m: map<nat, nat>, x: nat, n: Node, nx: Option<nat>)
    requires Denotes(t, lv, m) && Fresh(lv, x)
    ensures Denotes(AddNode(t, x, n, nx), lv, m)
    ensures forall q: nat, K: nat :: PathClean(t, lv, q, K) ==> PathClean(AddNode(t, x, n, nx), lv, q, K)
    ensures forall L :: 0 <= L < |lv| ==>
      In(t.nodes, lv[L]) && In(AddNode(t, x, n, nx).nodes, lv[L])
      && View(AddNode(t, x, n, nx).nodes, lv[L]) == View(t.nodes, lv[L])
  {
    Prepare(t, lv, x, n, nx);
    hide TreeOk;
    forall q: nat, K: nat | PathClean(t, lv, q, K) ensures PathClean(AddNode(t, x, n, nx), lv, q, K) {
      forall J: nat | K <= J < |lv| ensures CleanOn(AddNode(t, x, n, nx), lv[J], q) { assert CleanOn(t, lv[J], q); }
    }
  }

  /** Swinging the root pointer to a new root: the map stays. */
  lemma RootStep(t: Tree, lv: seq<seq<nat>>, m: map<nat, nat>, x: nat)
    requires Denotes(t, lv, m) && Fresh(lv, x) && x in t.nodes && x in t.next && t.next[x] == None
    requires
      var ids := lv[|lv| - 1];
      In(t.nodes, ids) && RootOver(t.nodes[x], |lv|, View(t.nodes, ids), ids) && CleanAt(View(t.nodes, ids), 1)
    ensures Denotes(t.(root := x), lv + [[x]], m)
    ensures forall q: nat, K: nat :: PathClean(t, lv, q, K) ==> PathClean(t.(root := x), lv + [[x]], q, K)
  {
    NewRoot(t, lv, x);
    hide TreeOk, RootOver;
    var t', lv' := t.(root := x), lv + [[x]];
    assert lv'[0] == lv[0];
    forall q: nat, K: nat | PathClean(t, lv, q, K) ensures PathClean(t', lv', q, K) {
      forall J: nat | K <= J < |lv'| ensures CleanOn(t', lv'[J], q) {
        if J < |lv| { assert CleanOn(t, lv[J], q) && lv'[J] == lv[J]; }
      }
    }
  }

  /** Keys between the same fences at one level are so at the level above. */
  lemma RangeUp(t: Tree, lv: seq<seq<nat>>, L: nat, a: nat, b: nat)
    requires TreeOk(t, lv) && L + 1 < |lv| && In(t.nodes, lv[L]) && In(t.nodes, lv[L + 1]) && lv[L] != []
      && lv[L + 1] != []
    requires Cover(View(t.nodes, lv[L]), a, 0) == Cover(View(t.nodes, lv[L]), b, 0)
    ensures Cover(View(t.nodes, lv[L + 1]), a, 0) == Cover(View(t.nodes, lv[L + 1]), b, 0)
  {
    hide TreeOk, RowOk;
    var up, ns, ids := View(t.nodes, lv[L + 1]), View(t.nodes, lv[L]), lv[L];
    LevelFacts(t, lv, L + 1);
    LevelFacts(t, lv, L);
    RowStarts(up, L + 1);
    RowStarts(ns, L);
    hide LevelOk, ParentAt, HasChild;
    if a <= b { SameRangeUp(up, ns, ids, L, a, b); } else { SameRangeUp(up, ns, ids, L, b, a); }
  }

  lemma SameRangeUp(up: seq<Node>, ns: seq<Node>, ids: seq<nat>, L: nat, a: nat, b: nat)
    requires RowOk(up, L + 1) && RowOk(ns, L) && ParentsOk(up, ns, ids) && a <= b && Cover(ns, a, 0) == Cover(ns, b, 0)
    ensures Cover(up, a, 0) == Cover(up, b, 0)
  {
    hide RowOk, Cover;
    RowStarts(up, L + 1);
    RowStarts(ns, L);
    var j := Cover(up, b, 0);
    assert ParentAt(up[j], FenceOf(up, j), ns, ids);
    var c: nat :| IsChild(ns, ids, up[j].leftmost, up[j].low, c);
    var i := Cover(ns, a, 0);
    if c > i + 1 { FencesAscend(ns, L, i + 1, c); }
    if c < i { FencesAscend(ns, L, c, i); }
    hide ParentsOk, ParentAt, CleanAt;
    CoverIs(up, L + 1, a, 0, j);
  }

  // ---- finding one's place again after a store ----

  lemma PlaceSet(t: Tree, lv: seq<seq<nat>>, L: nat, i: nat, n: Node, fence: Option<nat>, n': Node)
    requires TreeOk(t, lv) && NodeIs(t, lv, L, i, n, fence) && Keeps(n, n', fence)
    ensures NodeIs(SetNode(t, lv[L][i], n'), lv, L, i, n', fence)
    ensures forall j: nat :: CleanAt(View(t.nodes, lv[L]), j) ==>
      CleanAt(View(SetNode(t, lv[L][i], n').nodes, lv[L]), j)
    ensures n'.low == n.low
  {
    hide TreeOk, RowOk, Keeps, LevelOk, ParentsOk, CleanAt;
    LevelFacts(t, lv, L);
    var t', ns := SetNode(t, lv[L][i], n'), View(t.nodes, lv[L]);
    LowKept(n, n', fence);
    ReplaceRow(ns, L, i, n');
    assert View(t'.nodes, lv[L]) == ns[i := n'];
    forall j: nat ensures FenceOf(ns[i := n'], j) == FenceOf(ns, j) { }
  }

  lemma BelowSet(t: Tree, lv: seq<seq<nat>>, L: nat, i: nat, n': Node)
    requires TreeOk(t, lv) && L < |lv| && i < |lv[L]| && In(t.nodes, lv[L])
    ensures forall K :: 0 <= K < L ==>
      In(t.nodes, lv[K]) && In(SetNode(t, lv[L][i], n').nodes, lv[K])
      && View(SetNode(t, lv[L][i], n').nodes, lv[K]) == View(t.nodes, lv[K])
  {
    hide TreeOk, LevelOk, OthersStay;
    LevelFacts(t, lv, L);
    SetStays(t, lv[L][i], n');
    forall K | 0 <= K < L
      ensures In(t.nodes, lv[K]) && In(SetNode(t, lv[L][i], n').nodes, lv[K])
        && View(SetNode(t, lv[L][i], n').nodes, lv[K]) == View(t.nodes, lv[K])
    {
      LevelStays(t, SetNode(t, lv[L][i], n'), lv, L, K);
    }
  }

  lemma BelowNext(t: Tree, lv: seq<seq<nat>>, L: nat)
    requires TreeOk(t, lv) && L <= |lv|
    ensures forall K :: 0 <= K < L ==> In(t.nodes, lv[K])
  {
    forall K | 0 <= K < L ensures In(t.nodes, lv[K]) { LevelFacts(t, lv, K); }
  }

  /** For a full node, comparing the last key with the sibling's fence tells a half-finished split. */
  lemma TornTest(t: Tree, lv: seq<seq<nat>>, L: nat, i: nat, n: Node, x: nat)
    requires TreeOk(t, lv) && NodeIs(t, lv, L, i, n, Some(x)) && |Listed(n)| > 0
    ensures Listed(n)[|Listed(n)| - 1].key > x <==> !Under(n, Some(x))
  {
    hide TreeOk;
    var ns := View(t.nodes, lv[L]);
    LevelFacts(t, lv, L);
    NodeAtLevel(ns, L, i);
    hide RowOk, LevelOk, ParentsOk, Content;
    var s, q := Listed(n), Rank(Listed(n), x);
    UnderMeans(n, x);
    RankSplits(s, x);
    if q < |s| { assert |Tail(s, x)| == |s| - q && s[q].key < s[|s| - 1].key; }
  }
}
