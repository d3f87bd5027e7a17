/**
 * A key that a crash hides: with [0,0,0,0,0,0,1,1] and [0,0,0,0,0,0,1,2] stored, insert of
 * [0,0,0,0,0,1] splits the six-byte prefix of their common node behind its four stored bytes.
 * Between the two stores, and after a crash there, lookup no longer finds the first two.
 */
module ArtLost {
  import opened Common
  import opened ArtNode
  import opened ArtTree
  import opened ArtPrefix
  import opened ArtSteps
  import opened ArtShort
  import opened ArtTorn

  const LEFT: Key := [0, 0, 0, 0, 0, 0, 1, 1]
  const RIGHT: Key := [0, 0, 0, 0, 0, 0, 1, 2]
  const SHORT: Key := [0, 0, 0, 0, 0, 1]

  const HIGH: Key := [0, 0, 0, 0, 0]
  const LOW: Key := [0, 0, 0, 0, 0, 0, 1]

  /** A 4-way node with two children. */
  function Pair(b: Byte, r: Ref, d: Byte, t: Ref): Layout {
    Layout(N4, [b, d, 0, 0], [], [Some(r), Some(t), None, None], 2, 2)
  }

  lemma PairIs(b: Byte, r: Ref, d: Byte, t: Ref)
    requires b != d
    ensures Ok(Pair(b, r, d, t)) && Sized(Pair(b, r, d, t)) && !Pair(b, r, d, t).kind.N256?
    ensures forall e: Byte :: Child(Pair(b, r, d, t), e) == if e == b then Some(r) else if e == d then Some(t) else None
  {
    var l := Pair(b, r, d, t);
    var c := l.children;
    assert c[..3][..2][..1][..0] == [] && c[..3][..2] == [Some(r), Some(t)] && c[..3][..2][..1] == [Some(r)];
    assert Live(c) == 2;
    assert forall j :: 2 <= j < |c| ==> c[j].None?;
    assert Unique(l.keys, c);
    forall e: Byte ensures Child(l, e) == if e == b then Some(r) else if e == d then Some(t) else None {
      if e == b { ScanIs(l.keys, c, e, 0); } else if e == d { ScanIs(l.keys, c, e, 1); }
    }
  }

  /** The tree with the given prefix at its lowest node: [1] is the right one. */
  function Nodes(u: nat, v: nat, w: nat, low: Prefix): Heap {
    map[0 := Inner(0, Prefix(0, [0, 0, 0, 0]), Single(0, Ptr(1))),
        1 := Inner(5, Prefix(4, [0, 0, 0, 0]), Pair(0, Ptr(2), 1, Leaf(SHORT, w))),
        2 := Inner(7, low, Pair(1, Leaf(LEFT, u), 2, Leaf(RIGHT, v)))]
  }

  const PATHS: Paths := map[0 := [], 1 := HIGH, 2 := LOW]

  const CUT := Prefix(1, [1, 0, 0, 0])

  const UNCUT := Prefix(6, [0, 0, 0, 0])

  lemma SingleIs(b: Byte, r: Ref)
    ensures Ok(Single(b, r)) && Single(b, r).kind.N256?
    ensures forall e: Byte :: Child(Single(b, r), e) == if e == b then Some(r) else None
  {
    BlankLive(256);
    LiveSet(Blank(256), b, Some(r));
  }

  /** What the three nodes lead to. */
  ghost predicate Kids(h: Heap, u: nat, v: nat, w: nat) {
    && h.Keys == {0, 1, 2} && Ok(h[0].kids) && Ok(h[1].kids) && Ok(h[2].kids)
    && (forall e: Byte :: Child(h[0].kids, e) == if e == 0 then Some(Ptr(1)) else None)
    && (forall e: Byte ::
      Child(h[1].kids, e) == if e == 0 then Some(Ptr(2)) else if e == 1 then Some(Leaf(SHORT, w)) else None)
    && (forall e: Byte ::
      Child(h[2].kids, e) == if e == 1 then Some(Leaf(LEFT, u)) else if e == 2 then Some(Leaf(RIGHT, v)) else None)
  }

  lemma KidsAre(u: nat, v: nat, w: nat, low: Prefix)
    ensures Kids(Nodes(u, v, w, low), u, v, w)
  {
    hide Ok, Child, Pair, Single;
    SingleIs(0, Ptr(1));
    PairIs(0, Ptr(2), 1, Leaf(SHORT, w));
    PairIs(1, Leaf(LEFT, u), 2, Leaf(RIGHT, v));
  }

  lemma InOrder(u: nat, v: nat, w: nat)
    ensures Inv(Nodes(u, v, w, CUT), PATHS, 0)
  {
    hide Ok, Child, Pair, Single;
    var h := Nodes(u, v, w, CUT);
    KidsAre(u, v, w, CUT);
    SingleIs(0, Ptr(1));
    PairIs(0, Ptr(2), 1, Leaf(SHORT, w));
    PairIs(1, Leaf(LEFT, u), 2, Leaf(RIGHT, v));
    assert HIGH[1..] == [0, 0, 0, 0] && LOW[6..] == [1];
    assert NodeOk(h, PATHS, 0) by { assert [] + [0] <= HIGH; }
    assert NodeOk(h, PATHS, 1) by { assert HIGH + [0] <= LOW && HIGH + [1] <= SHORT; }
    assert NodeOk(h, PATHS, 2) by { assert LOW + [1] <= LEFT && LOW + [2] <= RIGHT; }
    forall x: nat, b: Byte, y: nat | Refers(h, x, b, y) ensures b == 0 && y == x + 1 { }
  }

  lemma Bound(h: Heap, u: nat, v: nat, w: nat, k: Key)
    requires Kids(h, u, v, w)
    ensures Find(h, PATHS, 0, k) == if k == LEFT then Some(u) else if k == RIGHT then Some(v) else if k == SHORT
      then Some(w) else None
  {
    hide Ok, Child;
    Below2(h, u, v, w, k);
    Below1(h, u, v, w, k);
    if k != [] && k[0] == 0 { assert Find(h, PATHS, 0, k) == Find(h, PATHS, 1, k); }
  }

  lemma Below2(h: Heap, u: nat, v: nat, w: nat, k: Key)
    requires Kids(h, u, v, w)
    ensures Find(h, PATHS, 2, k) == if k == LEFT then Some(u) else if k == RIGHT then Some(v) else None
  {
    hide Ok, Child;
    assert LOW < LEFT && LOW < RIGHT && LEFT[7] == 1 && RIGHT[7] == 2;
  }

  lemma Below1(h: Heap, u: nat, v: nat, w: nat, k: Key)
    requires Kids(h, u, v, w)
    ensures Find(h, PATHS, 1, k) == if k == SHORT then Some(w) else Find(h, PATHS, 2, k)
  {
    hide Ok, Child;
    assert HIGH < SHORT && SHORT[5] == 1;
    Below2(h, u, v, w, k);
    assert HIGH < LEFT && HIGH < RIGHT && LEFT[5] == 0 && RIGHT[5] == 0;
  }

  lemma LowIsTorn(u: nat, v: nat, w: nat)
    ensures Torn(Nodes(u, v, w, UNCUT), Nodes(u, v, w, CUT), PATHS)
  {
    hide Pair, Single;
    var h, g := Nodes(u, v, w, UNCUT), Nodes(u, v, w, CUT);
    assert HIGH[1..] == [0, 0, 0, 0] && LOW[1..] == [0, 0, 0, 0, 0, 1];
    forall x: nat | x in h ensures NodeTorn(h, g, PATHS, x) { }
  }

  lemma LeftStrays(u: nat, v: nat, w: nat)
    ensures Strays(Nodes(u, v, w, UNCUT), PATHS, 0, LEFT, 0)
  {
    hide Ok, Child, Pair, Single;
    var h := Nodes(u, v, w, UNCUT);
    KidsAre(u, v, w, UNCUT);
    assert HIGH < LEFT && LOW < LEFT;
    assert Strays(h, PATHS, 2, LEFT, 6);
    assert Strays(h, PATHS, 1, LEFT, 1);
  }

  /** The crash state stands for all three keys, and lookup is led past the end of the first. */
  lemma CrashHidesKey(u: nat, v: nat, w: nat)
    ensures
      var h, m := Nodes(u, v, w, UNCUT), map[LEFT := u, RIGHT := v, SHORT := w];
      && Torn(h, Nodes(u, v, w, CUT), PATHS) && Means(Nodes(u, v, w, CUT), PATHS, 0, m) && Stands(h, 0, m)
      && LEFT in m && Strays(h, PATHS, 0, LEFT, 0)
  {
    hide Kids, Find, Nodes, Torn, Strays, Inv;
    var g, m := Nodes(u, v, w, CUT), map[LEFT := u, RIGHT := v, SHORT := w];
    InOrder(u, v, w);
    KidsAre(u, v, w, CUT);
    LowIsTorn(u, v, w);
    LeftStrays(u, v, w);
    assert LEFT[7] != RIGHT[7] && |SHORT| < |LEFT|;
    forall k: Key ensures Find(g, PATHS, 0, k) == MapAt(m, k) { Bound(g, u, v, w, k); }
  }

  /** The tree before the insert: the six bytes are the right prefix there. */
  function Before(u: nat, v: nat): Heap {
    map[0 := Inner(0, Prefix(0, [0, 0, 0, 0]), Single(0, Ptr(2))),
        2 := Inner(7, UNCUT, Pair(1, Leaf(LEFT, u), 2, Leaf(RIGHT, v)))]
  }

  /** The crash state is the one after the first store of the split. */
  lemma AfterFirstStore(u: nat, v: nat, w: nat)
    ensures PrefixOk(UNCUT, LOW[1..])
    ensures
      var node := Inner(5, UNCUT.(count := 4), Pair(0, Ptr(2), 1, Leaf(SHORT, w)));
      Nodes(u, v, w, UNCUT) == SetKids(Before(u, v), 0, Single(0, Ptr(1)))[1 := node]
  {
    hide Pair, Single;
    assert LOW[1..] == [0, 0, 0, 0, 0, 1];
  }
}
