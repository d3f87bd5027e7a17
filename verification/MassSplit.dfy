/** Searching a node and splitting a full one. */
module MassSplit {
  import opened Common
  import opened MassNode
  import opened MassTree
  import opened MassRows
  import opened MassSteps

  /** key_lower_bound_by: the rank of the key, and whether it is there. */
  method KeyLowerBoundBy(n: Node, key: nat) returns (i: nat, found: bool)
    requires NodeOk(n)
    ensures i == Rank(Listed(n), key)
    ensures found <==> i < |Listed(n)| && Listed(n)[i].key == key
    ensures found <==> exists j :: 0 <= j < |Listed(n)| && Listed(n)[j].key == key
  {
    var l, r := 0, n.perm.size;
    ghost var s := Listed(n);
    while l < r
      invariant 0 <= l <= r <= n.perm.size
      invariant forall j :: 0 <= j < l ==> s[j].key < key
      invariant forall j :: r <= j < |s| ==> s[j].key > key
    {
      var m := (l + r) / 2;
      var k := SlotAt(n, m).key;
      assert k == s[m].key;
      if key < k { r := m; }
      else if key == k {
        RankIs(s, key, m);
        return m, true;
      } else { l := m + 1; }
    }
    RankIs(s, key, l);
    return l, false;
  }

  /** key_lower_bound: the last entry at or below the key, or -1. */
  method KeyLowerBound(n: Node, key: nat) returns (i: int)
    requires NodeOk(n)
    ensures -1 <= i < |Listed(n)|
    ensures forall j :: 0 <= j < |Listed(n)| ==> (j <= i <==> Listed(n)[j].key <= key)
  {
    var l, r := 0, n.perm.size;
    ghost var s := Listed(n);
    while l < r
      invariant 0 <= l <= r <= n.perm.size
      invariant forall j :: 0 <= j < l ==> s[j].key < key
      invariant forall j :: r <= j < |s| ==> s[j].key > key
    {
      var m := (l + r) / 2;
      var k := SlotAt(n, m).key;
      assert k == s[m].key;
      if key < k { r := m; }
      else if key == k { return m; }
      else { l := m + 1; }
    }
    return l - 1;
  }

  const BLANK: seq<Slot> := seq(WIDTH, i => Slot(0, 0))

  /**
   * split_into: a right sibling with the upper half of the full leaf n and, if it belongs there, the
   * new pair in a slot that is filled but not yet listed.
   */
  method SplitInto(n: Node, p: nat, key: nat, value: nat, ghost fence: Option<nat>) returns (r: Node)
    requires NodeAt(n, 0) && n.perm.size == WIDTH && Under(n, fence) && Fits(n, Slot(key, value), fence)
      && p == Rank(Listed(n), key)
    ensures TakesOver(n, r, fence)
    ensures r.perm.size == if p < 8 then 8 else 7
    ensures Front(Listed(n), r.low) == Listed(n)[..WIDTH - r.perm.size]
    ensures
      if p < 8 then key < r.low
      else r.low <= key && SlotAt(r, WIDTH - 1) == Slot(key, value) && Rank(Listed(r), key) == p - 8
  {
    var width := n.perm.size;
    var mid := width / 2 + 1;
    ghost var merged := Inserted(Listed(n), p, Slot(key, value));
    var pv := if p < mid then mid - 1 else mid;
    var entry := BLANK;
    for x := mid to width + 1
      invariant |entry| == WIDTH && pv == if p < x then x - 1 else x
      invariant forall j :: 0 <= j < x - mid ==> entry[j] == merged[mid + j]
    {
      if x == p {
        entry := entry[x - mid := Slot(key, value)];
      } else {
        entry := entry[x - mid := SlotAt(n, pv)];
        pv := pv + 1;
      }
    }
    var perm := MakeSorted(width + 1 - mid);
    if p >= mid { perm := RemoveToBack(perm, p - mid); }
    r := Node(n.level, entry, perm, 0, entry[0].key);
    SplitRight(n, p, Slot(key, value), r, fence);
  }

  lemma SplitRight(n: Node, p: nat, e: Slot, r: Node, fence: Option<nat>)
    requires NodeAt(n, 0) && n.perm.size == WIDTH && Under(n, fence) && Fits(n, e, fence) && p == Rank(Listed(n), e.key)
    requires |r.entry| == WIDTH && r.level == 0 && r.low == r.entry[0].key
    requires forall j :: 0 <= j < 8 ==> r.entry[j] == Inserted(Listed(n), p, e)[8 + j]
    requires r.perm == if p < 8 then MakeSorted(8) else RemoveToBack(MakeSorted(8), p - 8)
    ensures TakesOver(n, r, fence)
    ensures Front(Listed(n), r.low) == Listed(n)[..WIDTH - r.perm.size]
    ensures
      if p < 8 then e.key < r.low
      else r.low <= e.key && SlotAt(r, WIDTH - 1) == e && Rank(Listed(r), e.key) == p - 8
  {
    var s := Listed(n);
    RankSplits(s, e.key);
    SplitListed(n, p, e, r);
    var c := if p < 8 then 7 else 8;
    assert Listed(r) == s[c..];
    assert r.entry[0] == if p < 8 then s[7] else if p == 8 then e else s[8];
    RankIs(s, r.low, c);
    assert s[0].key < r.low;
    assert NodeOk(r);
    if p >= 8 { RankIs(Listed(r), e.key, p - 8); }
  }

  lemma SplitListed(n: Node, p: nat, e: Slot, r: Node)
    requires NodeOk(n) && n.perm.size == WIDTH && p <= WIDTH && |r.entry| == WIDTH
    requires forall j :: 0 <= j < 8 ==> r.entry[j] == Inserted(Listed(n), p, e)[8 + j]
    requires r.perm == if p < 8 then MakeSorted(8) else RemoveToBack(MakeSorted(8), p - 8)
    ensures Shaped(r) && Listed(r) == Listed(n)[if p < 8 then 7 else 8..]
    ensures p >= 8 ==> SlotAt(r, WIDTH - 1) == e
  {
    hide Ascending, NoDup, Inserted;
    var s := Listed(n);
    if p >= 8 { RemoveOk(MakeSorted(8), p - 8); }
    assert Shaped(r);
    var c := if p < 8 then 7 else 8;
    forall j: nat | j < |Listed(r)| ensures Listed(r)[j] == s[c + j] {
      var y := r.perm.slots[j];
      assert y == if p >= 8 && j >= p - 8 then j + 1 else j;
      assert Listed(r)[j] == r.entry[y] && r.entry[y] == Inserted(s, p, e)[8 + y];
    }
    if p >= 8 { assert r.perm.slots[WIDTH - 1] == p - 8; assert r.entry[p - 8] == Inserted(s, p, e)[p]; }
  }

  /** split_into_inter: a right sibling with the entries above the middle one, which becomes its fence. */
  method SplitIntoInter(n: Node, ghost fence: Option<nat>) returns (r: Node)
    requires NodeAt(n, n.level) && n.level > 0 && n.perm.size == WIDTH && Under(n, fence)
    ensures TakesOver(n, r, fence) && r.perm.size == 7 && Front(Listed(n), r.low) == Listed(n)[..7]
    ensures exists j :: 0 <= j < |Listed(n)| && Listed(n)[j].key == r.low
  {
    var width := n.perm.size;
    var mid := width / 2 + 1;
    var pv := mid;
    var entry := BLANK;
    for x := mid to width
      invariant |entry| == WIDTH && pv == x
      invariant forall j :: 0 <= j < x - mid ==> entry[j] == Listed(n)[mid + j]
    {
      entry := entry[x - mid := SlotAt(n, pv)];
      pv := pv + 1;
    }
    var perm := MakeSorted(width - mid);
    var middle := SlotAt(n, mid - 1);
    r := Node(n.level, entry, perm, middle.value, middle.key);
    ghost var s := Listed(n);
    assert middle == s[7];
    assert Listed(r) == s[8..];
    RankIs(s, r.low, 7);
    assert Content(r) == s[7..];
    assert s[0].key < r.low && Below(s[7].key, fence);
  }
}
