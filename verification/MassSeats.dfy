/**
 * Every node has its place: a node below the top level is a child of a node one level up, and the top
 * level has one node, the root.
 */
module MassSeats {
  import opened Common
  import opened MassNode
  import opened MassTree
  import opened MassRows
  import opened MassStores
  import opened MassSteps

  /** Levels below L are as they were. */
  ghost predicate SameBelow(t: Tree, lv: seq<seq<nat>>, t': Tree, lv': seq<seq<nat>>, L: nat) {
    && L <= |lv| && L <= |lv'|
    && forall K :: 0 <= K < L ==>
      lv'[K] == lv[K] && In(t.nodes, lv[K]) && In(t'.nodes, lv[K]) && View(t'.nodes, lv[K]) == View(t.nodes, lv[K])
  }

  ghost predicate Lists(n: Node, k: nat) { exists j :: 0 <= j < |Listed(n)| && Listed(n)[j].key == k }

  /** The node of level L above k has k as the fence of one of its children. */
  ghost predicate Parented(t: Tree, lv: seq<seq<nat>>, L: nat, k: nat) {
    && L < |lv| && lv[L] != [] && In(t.nodes, lv[L])
    && var n := View(t.nodes, lv[L])[Cover(View(t.nodes, lv[L]), k, 0)]; n.low == k || Lists(n, k)
  }


  // ---- rows ----

  predicate HasLow(ns: seq<Node>, k: nat) { exists j :: 0 <= j < |ns| && ns[j].low == k }

  ghost predicate GuidesAt(ns: seq<Node>, k: nat, j: nat) {
    j < |ns| && ns[j].low <= k && Below(k, FenceOf(ns, j)) && (ns[j].low == k || Lists(ns[j], k))
  }

  /** The row leads to a child with fence k. */
  ghost predicate Guides(ns: seq<Node>, k: nat) { exists j: nat :: GuidesAt(ns, k, j) }

  /** No fences are new but `more`, and an inner row leads wherever it did. */
  ghost predicate RowMoves(ns: seq<Node>, ns': seq<Node>, L: nat, more: Option<nat>) {
    && (forall j :: 0 <= j < |ns'| ==> HasLow(ns, ns'[j].low) || more == Some(ns'[j].low))
    && (L > 0 ==> forall k: nat :: Guides(ns, k) ==> Guides(ns', k))
  }

  lemma RowSame(ns: seq<Node>, L: nat, more: Option<nat>)
    ensures RowMoves(ns, ns, L, more)
  {
  }

  lemma RowSet(ns: seq<Node>, L: nat, i: nat, n': Node)
    requires i < |ns| && n'.low == ns[i].low
    requires L > 0 ==> forall k: nat :: Lists(ns[i], k) && Below(k, FenceOf(ns, i)) ==> Lists(n', k)
    ensures RowMoves(ns, ns[i := n'], L, None)
  {
    var ns' := ns[i := n'];
    forall k: nat, j: nat | L > 0 && GuidesAt(ns, k, j) ensures GuidesAt(ns', k, j) {
      assert FenceOf(ns', j) == FenceOf(ns, j);
    }
  }

  lemma FrontOrTail(s: seq<Slot>, x: nat, j: nat)
    requires Ascending(s) && j < |s|
    ensures
      if s[j].key < x then j < |Front(s, x)| && Front(s, x)[j] == s[j]
      else Rank(s, x) <= j && j - Rank(s, x) < |Tail(s, x)| && Tail(s, x)[j - Rank(s, x)] == s[j]
  {
    RankSplits(s, x);
  }

  lemma ContentLists(r: Node, d: nat)
    requires r.level > 0 && d < |Content(r)|
    ensures Content(r)[d].key == r.low || Lists(r, Content(r)[d].key)
  {
    hide Listed;
    if d > 0 { assert Listed(r)[d - 1] == Content(r)[d]; }
  }

  /** What a cut node no longer lists, its new sibling does. */
  lemma HalvesList(n: Node, r: Node, fence: Option<nat>, n': Node, k: nat)
    requires TakesOver(n, r, fence) && Listed(n') == Front(Listed(n), r.low) && Lists(n, k) && n.level > 0
    ensures if k < r.low then Lists(n', k) else k == r.low || Lists(r, k)
  {
    hide Listed, Front, Tail, Content, Rank;
    var j :| 0 <= j < |Listed(n)| && Listed(n)[j].key == k;
    FrontOrTail(Listed(n), r.low, j);
    if k >= r.low { ContentLists(r, j - Rank(Listed(n), r.low)); }
  }

  lemma RowSibling(ns: seq<Node>, L: nat, i: nat, r: Node, n': Node)
    requires i < |ns| && ns[i].level == L && TakesOver(ns[i], r, FenceOf(ns, i)) && n'.low == ns[i].low
      && Listed(n') == Front(Listed(ns[i]), r.low)
    ensures RowMoves(ns, Inserted(ns, i + 1, r)[i := n'], L, Some(r.low))
  {
    hide Lists, Front, Listed;
    var ns', fence := Inserted(ns, i + 1, r)[i := n'], FenceOf(ns, i);
    TakesOverFacts(ns[i], r, fence);
    hide TakesOver;
    forall j | 0 <= j < |ns'| ensures HasLow(ns, ns'[j].low) || ns'[j].low == r.low {
      if j <= i { assert ns[j].low == ns'[j].low; } else if j > i + 1 { assert ns[j - 1].low == ns'[j].low; }
    }
    forall k: nat | L > 0 && Guides(ns, k) ensures Guides(ns', k) {
      var j: nat :| GuidesAt(ns, k, j);
      SiblingGuides(ns, i, r, n', k, j);
    }
  }

  lemma SiblingGuides(ns: seq<Node>, i: nat, r: Node, n': Node, k: nat, j: nat)
    requires i < |ns| && ns[i].level > 0 && TakesOver(ns[i], r, FenceOf(ns, i)) && n'.low == ns[i].low
      && Listed(n') == Front(Listed(ns[i]), r.low) && GuidesAt(ns, k, j)
    ensures Guides(Inserted(ns, i + 1, r)[i := n'], k)
  {
    hide Lists, Front, Listed;
    var ns' := Inserted(ns, i + 1, r)[i := n'];
    if Lists(ns[i], k) { HalvesList(ns[i], r, FenceOf(ns, i), n', k); }
    TakesOverFacts(ns[i], r, FenceOf(ns, i));
    hide TakesOver;
    var j' := if j < i || (j == i && k < r.low) then j else j + 1;
    assert GuidesAt(ns', k, j');
  }

  // ---- trees ----

  /** A node of level L with fence k has a parent, or is the root. */
  ghost predicate Seated(t: Tree, lv: seq<seq<nat>>, L: nat, k: nat) {
    if L + 1 < |lv| then In(t.nodes, lv[L + 1]) && Guides(View(t.nodes, lv[L + 1]), k) else k == 0
  }

  /** Every node is seated, but for the one of level M with fence q, if any. */
  ghost predicate FullBut(t: Tree, lv: seq<seq<nat>>, M: nat, q: Option<nat>) {
    forall L: nat, j: nat :: L < |lv| && j < |lv[L]| ==>
      lv[L][j] in t.nodes && ((L == M && q == Some(t.nodes[lv[L][j]].low)) || Seated(t, lv, L, t.nodes[lv[L][j]].low))
  }

  ghost predicate Full(t: Tree, lv: seq<seq<nat>>) { FullBut(t, lv, 0, None) }

  /** Level by level no fence is new but `more` on level M, and what had a parent has one. */
  ghost predicate SeatsStay(t: Tree, lv: seq<seq<nat>>, t': Tree, lv': seq<seq<nat>>, M: nat, more: Option<nat>) {
    && |lv'| == |lv|
    && forall L: nat :: L < |lv| ==>
         && In(t.nodes, lv[L]) && In(t'.nodes, lv'[L])
         && RowMoves(View(t.nodes, lv[L]), View(t'.nodes, lv'[L]), L, if L == M then more else None)
  }

  lemma SeatKept(t: Tree, lv: seq<seq<nat>>, t': Tree, lv': seq<seq<nat>>, M: nat, more: Option<nat>, L: nat, k: nat)
    requires SeatsStay(t, lv, t', lv', M, more) && Seated(t, lv, L, k)
    ensures Seated(t', lv', L, k)
  {
    hide Guides, HasLow;
    if L + 1 < |lv| {
      assert RowMoves(View(t.nodes, lv[L + 1]), View(t'.nodes, lv'[L + 1]), L + 1, if L + 1 == M then more else None);
    }
  }

  lemma FullTrans(t: Tree, lv: seq<seq<nat>>, M: nat, q: Option<nat>, t': Tree, lv': seq<seq<nat>>, M': nat,
        q': Option<nat>)
    requires FullBut(t, lv, M, q) && SeatsStay(t, lv, t', lv', M', q')
    requires q.Some? ==> Seated(t', lv', M, q.value)
    ensures FullBut(t', lv', M', q')
  {
    hide Guides, Seated;
    forall L: nat, j: nat | L < |lv'| && j < |lv'[L]|
      ensures lv'[L][j] in t'.nodes && ((L == M' && q' == Some(t'.nodes[lv'[L][j]].low))
        || Seated(t', lv', L, t'.nodes[lv'[L][j]].low))
    {
      var ns, ns' := View(t.nodes, lv[L]), View(t'.nodes, lv'[L]);
      assert RowMoves(ns, ns', L, if L == M' then q' else None);
      var k := ns'[j].low;
      assert HasLow(ns, k) || (L == M' && q' == Some(k));
      if HasLow(ns, k) {
        var i :| 0 <= i < |ns| && ns[i].low == k;
        assert t.nodes[lv[L][i]].low == k;
        if !(L == M && q == Some(k)) { SeatKept(t, lv, t', lv', M', q', L, k); }
      }
    }
  }

  lemma FullOnce(t: Tree, lv: seq<seq<nat>>, M: nat, q: nat)
    requires FullBut(t, lv, M, Some(q)) && Seated(t, lv, M, q)
    ensures Full(t, lv)
  {
    hide Seated;
  }

  /** A new root over a top level of two nodes. */
  lemma FullRaised(t: Tree, lv: seq<seq<nat>>, q: nat, t': Tree, lv': seq<seq<nat>>, x: nat)
    requires |lv| > 0 && FullBut(t, lv, |lv| - 1, Some(q)) && SameBelow(t, lv, t', lv', |lv|)
    requires lv' == lv + [[x]] && x in t'.nodes && t'.nodes[x].low == 0 && Lists(t'.nodes[x], q)
    ensures Full(t', lv')
  {
    hide Lists;
    var top := View(t'.nodes, [x]);
    assert top == [t'.nodes[x]] && GuidesAt(top, 0, 0) && GuidesAt(top, q, 0);
    forall L: nat, j: nat | L < |lv'| && j < |lv'[L]|
      ensures lv'[L][j] in t'.nodes && Seated(t', lv', L, t'.nodes[lv'[L][j]].low)
    {
      if L < |lv| {
        assert View(t'.nodes, lv'[L])[j] == View(t.nodes, lv[L])[j];
        assert lv[L][j] in t.nodes;
        if L + 1 < |lv| { assert Seated(t, lv, L, t.nodes[lv[L][j]].low); }
      }
    }
  }

  lemma ParentedGuides(t: Tree, lv: seq<seq<nat>>, L: nat, k: nat)
    requires TreeOk(t, lv) && L < |lv|
    ensures In(t.nodes, lv[L]) && (Parented(t, lv, L, k) <==> Guides(View(t.nodes, lv[L]), k))
  {
    hide TreeOk, RowOk, Lists, Cover;
    LevelFacts(t, lv, L);
    var ns := View(t.nodes, lv[L]);
    RowStarts(ns, L);
    if Parented(t, lv, L, k) { assert GuidesAt(ns, k, Cover(ns, k, 0)); }
    if Guides(ns, k) {
      var j: nat :| GuidesAt(ns, k, j);
      CoverIs(ns, L, k, 0, j);
    }
  }

  /** A row leads to children that may be changed. */
  lemma GuidedClean(up: seq<Node>, ns: seq<Node>, ids: seq<nat>, L: nat, k: nat, i: nat)
    requires ParentsOk(up, ns, ids) && RowOk(ns, L) && Guides(up, k) && i < |ns| && ns[i].low == k
    ensures CleanAt(ns, i)
  {
    var j: nat :| GuidesAt(up, k, j);
    assert ParentAt(up[j], FenceOf(up, j), ns, ids);
    hide RowOk, CleanAt, Lists, Listed;
    var x := ChildWith(up[j], FenceOf(up, j), ns, ids, k);
    var c: nat :| IsChild(ns, ids, x, k, c);
    if c < i { FencesAscend(ns, L, c, i); } else if i < c { FencesAscend(ns, L, i, c); }
  }

  lemma ChildWith(n: Node, fence: Option<nat>, ns: seq<Node>, ids: seq<nat>, k: nat) returns (x: nat)
    requires ParentAt(n, fence, ns, ids) && Below(k, fence) && (n.low == k || Lists(n, k))
    ensures HasChild(ns, ids, x, k)
  {
    hide HasChild, Listed;
    if n.low == k {
      x := n.leftmost;
    } else {
      var j :| 0 <= j < |Listed(n)| && Listed(n)[j].key == k;
      x := Listed(n)[j].value;
    }
  }

  lemma SeatedBelow(t: Tree, lv: seq<seq<nat>>, L: nat, i: nat)
    requires TreeOk(t, lv) && L < |lv| && i + 1 < |lv[L]| && In(t.nodes, lv[L])
      && Seated(t, lv, L, t.nodes[lv[L][i + 1]].low)
    ensures L + 1 < |lv| && In(t.nodes, lv[L + 1]) && Guides(View(t.nodes, lv[L + 1]), t.nodes[lv[L][i + 1]].low)
  {
    hide TreeOk, RowOk, LevelOk, ParentsOk, Guides;
    LevelFacts(t, lv, L);
    FencesAscend(View(t.nodes, lv[L]), L, 0, i + 1);
  }

  /** A seated node was split off by a finished split. */
  lemma SeatedDone(t: Tree, lv: seq<seq<nat>>, L: nat, i: nat)
    requires TreeOk(t, lv) && L < |lv| && i + 1 < |lv[L]| && In(t.nodes, lv[L])
      && Seated(t, lv, L, t.nodes[lv[L][i + 1]].low)
    ensures L + 1 < |lv| && CleanAt(View(t.nodes, lv[L]), i + 1) && Parented(t, lv, L + 1, t.nodes[lv[L][i + 1]].low)
  {
    hide TreeOk, RowOk, LevelOk, CleanAt, Guides, ParentsOk, Parented, Seated;
    SeatedBelow(t, lv, L, i);
    LevelFacts(t, lv, L);
    LevelFacts(t, lv, L + 1);
    ParentedGuides(t, lv, L + 1, t.nodes[lv[L][i + 1]].low);
    GuidedClean(View(t.nodes, lv[L + 1]), View(t.nodes, lv[L]), lv[L], L, t.nodes[lv[L][i + 1]].low, i + 1);
  }

  lemma ParentedSeat(t: Tree, lv: seq<seq<nat>>, L: nat, k: nat)
    requires TreeOk(t, lv) && 0 < L < |lv| && Parented(t, lv, L, k)
    ensures Seated(t, lv, L - 1, k)
  {
    hide TreeOk, Guides, Parented;
    ParentedGuides(t, lv, L, k);
  }

  // ---- stores ----

  /** Replacing a node that still leads to all it led to. */
  lemma SetSeats(t: Tree, lv: seq<seq<nat>>, L: nat, i: nat, n: Node, fence: Option<nat>, n': Node)
    requires TreeOk(t, lv) && NodeIs(t, lv, L, i, n, fence) && n'.low == n.low
    requires L > 0 ==> forall k: nat :: Lists(n, k) && Below(k, fence) ==> Lists(n', k)
    ensures SeatsStay(t, lv, SetNode(t, lv[L][i], n'), lv, 0, None)
  {
    hide TreeOk, LevelOk, OthersStay, RowMoves, CleanAt, RowOk, Lists;
    var t' := SetNode(t, lv[L][i], n');
    LevelFacts(t, lv, L);
    SetStays(t, lv[L][i], n');
    forall K: nat | K < |lv|
      ensures In(t.nodes, lv[K]) && In(t'.nodes, lv[K])
        && RowMoves(View(t.nodes, lv[K]), View(t'.nodes, lv[K]), K, None)
    {
      if K == L {
        RowSet(View(t.nodes, lv[L]), L, i, n');
        assert View(t'.nodes, lv[L]) == View(t.nodes, lv[L])[i := n'];
      } else {
        LevelStays(t, t', lv, L, K);
        RowSame(View(t.nodes, lv[K]), K, None);
      }
    }
  }

  /** A new right sibling, with the left node cut. */
  lemma SiblingSeats(t: Tree, lv: seq<seq<nat>>, L: nat, i: nat, n: Node, fence: Option<nat>, y: nat, r: Node,
        n': Node, t': Tree)
    requires TreeOk(t, lv) && NodeIs(t, lv, L, i, n, fence) && Fresh(lv, y) && TakesOver(n, r, fence)
    requires n'.low == n.low && Listed(n') == Front(Listed(n), r.low) && t'.nodes == t.nodes[y := r][lv[L][i] := n']
    ensures SeatsStay(t, lv, t', lv[L := Inserted(lv[L], i + 1, y)], L, Some(r.low))
  {
    hide TreeOk, LevelOk, RowMoves, CleanAt, RowOk, Lists, TakesOver, Listed, Front;
    var lv', x := lv[L := Inserted(lv[L], i + 1, y)], lv[L][i];
    LevelFacts(t, lv, L);
    forall K: nat | K < |lv|
      ensures In(t.nodes, lv[K]) && In(t'.nodes, lv'[K])
        && RowMoves(View(t.nodes, lv[K]), View(t'.nodes, lv'[K]), K, if K == L then Some(r.low) else None)
    {
      LevelFacts(t, lv, K);
      if K == L {
        RowSibling(View(t.nodes, lv[L]), L, i, r, n');
        assert View(t'.nodes, lv'[L]) == Inserted(View(t.nodes, lv[L]), i + 1, r)[i := n'];
      } else {
        assert View(t'.nodes, lv[K]) == View(t.nodes, lv[K]);
        RowSame(View(t.nodes, lv[K]), K, None);
      }
    }
  }

  lemma SeatsTrans(t0: Tree, lv0: seq<seq<nat>>, t1: Tree, lv1: seq<seq<nat>>, t2: Tree, lv2: seq<seq<nat>>, M: nat,
        more: Option<nat>)
    requires SeatsStay(t0, lv0, t1, lv1, M, more) && SeatsStay(t1, lv1, t2, lv2, 0, None)
    ensures SeatsStay(t0, lv0, t2, lv2, M, more)
  {
    hide RowMoves;
    forall L: nat | L < |lv0|
      ensures In(t0.nodes, lv0[L]) && In(t2.nodes, lv2[L])
        && RowMoves(View(t0.nodes, lv0[L]), View(t2.nodes, lv2[L]), L, if L == M then more else None)
    {
      RowTrans(View(t0.nodes, lv0[L]), View(t1.nodes, lv1[L]), View(t2.nodes, lv2[L]), L, if L == M then more
        else None);
    }
  }

  lemma RowTrans(ns: seq<Node>, ns1: seq<Node>, ns2: seq<Node>, L: nat, more: Option<nat>)
    requires RowMoves(ns, ns1, L, more) && RowMoves(ns1, ns2, L, None)
    ensures RowMoves(ns, ns2, L, more)
  {
    hide Guides;
    forall j | 0 <= j < |ns2| ensures HasLow(ns, ns2[j].low) || more == Some(ns2[j].low) {
      assert HasLow(ns1, ns2[j].low);
      var i :| 0 <= i < |ns1| && ns1[i].low == ns2[j].low;
    }
  }

  lemma InsertedLists(n: Node, n': Node, p: nat, e: Slot, k: nat)
    requires p <= |Listed(n)| && Listed(n') == Inserted(Listed(n), p, e) && Lists(n, k)
    ensures Lists(n', k)
  {
    hide Listed;
    var j :| 0 <= j < |Listed(n)| && Listed(n)[j].key == k;
    assert Listed(n')[if j < p then j else j + 1] == Listed(n)[j];
  }
}
