/**
 * A Masstree node with integer keys: fifteen slots, a permutation that lists the used ones in key
 * order, and a fence (the field named `highest` in the code, though it bounds the keys from below).
 * The sibling pointers are kept beside the nodes.
 */
module MassNode {
  import opened Common

  const WIDTH := 15

  datatype Slot = Slot(key: nat, value: nat)

  /** A permutation of the slots of which the first `size` are in use. */
  datatype Perm = Perm(size: nat, slots: seq<nat>)

  datatype Node = Node(level: nat, entry: seq<Slot>, perm: Perm, leftmost: nat, low: nat)

  predicate PermOk(p: Perm) {
    p.size <= WIDTH && |p.slots| == WIDTH && NoDup(p.slots) && forall x :: x in p.slots ==> x < WIDTH
  }

  predicate Shaped(n: Node) { PermOk(n.perm) && |n.entry| == WIDTH }

  function SlotAt(n: Node, i: nat): Slot
    requires Shaped(n) && i < WIDTH
  {
    assert n.perm.slots[i] in n.perm.slots;
    n.entry[n.perm.slots[i]]
  }

  /** The entries in use, in permutation order. */
  function Listed(n: Node): (s: seq<Slot>)
    ensures Shaped(n) ==> |s| == n.perm.size && forall i :: 0 <= i < |s| ==> s[i] == SlotAt(n, i)
  {
    if Shaped(n) then seq(n.perm.size, i requires 0 <= i < n.perm.size => SlotAt(n, i)) else []
  }

  predicate Ascending(s: seq<Slot>) { forall i, j :: 0 <= i < j < |s| ==> s[i].key < s[j].key }

  predicate NodeOk(n: Node) { Shaped(n) && Ascending(Listed(n)) }

  /** How many entries have a key below k. */
  function Rank(s: seq<Slot>, k: nat): (r: nat)
    ensures r <= |s|
  {
    if s == [] || s[0].key >= k then 0 else 1 + Rank(s[1..], k)
  }

  function FindIn(s: seq<Slot>, k: nat): Option<nat> {
    var r := Rank(s, k);
    if r < |s| && s[r].key == k then Some(s[r].value) else None
  }

  lemma {:induction false} RankSplits(s: seq<Slot>, k: nat)
    requires Ascending(s)
    ensures forall i :: 0 <= i < |s| ==> (i < Rank(s, k) <==> s[i].key < k)
  {
    if s != [] && s[0].key < k {
      RankSplits(s[1..], k);
      forall i | 0 <= i < |s| ensures i < Rank(s, k) <==> s[i].key < k { if i > 0 { assert s[i] == s[1..][i - 1]; } }
    }
  }

  /** Rank is the only cut with smaller keys before it and larger or equal ones after. */
  lemma {:induction false} RankIs(s: seq<Slot>, k: nat, r: nat)
    requires Ascending(s) && r <= |s| && (forall i :: 0 <= i < r ==> s[i].key < k)
      && (forall i :: r <= i < |s| ==> s[i].key >= k)
    ensures Rank(s, k) == r
  {
    if r > 0 { RankIs(s[1..], k, r - 1); }
  }

  lemma {:induction false} RankGrows(s: seq<Slot>, k: nat, x: nat)
    requires k <= x
    ensures Rank(s, k) <= Rank(s, x)
  {
    if s != [] { RankGrows(s[1..], k, x); }
  }

  lemma FindIs(s: seq<Slot>, k: nat, i: nat)
    requires Ascending(s) && i < |s| && s[i].key == k
    ensures FindIn(s, k) == Some(s[i].value) && Rank(s, k) == i
  {
    RankIs(s, k, i);
  }

  /** The entries from fence x on. */
  function Tail(s: seq<Slot>, x: nat): seq<Slot> { s[Rank(s, x)..] }

  /** The entries below fence x. */
  function Front(s: seq<Slot>, x: nat): seq<Slot> { s[..Rank(s, x)] }

  /** At or above the fence a lookup may as well look at the tail, below it at the front. */
  lemma FindTail(s: seq<Slot>, x: nat, k: nat)
    requires Ascending(s)
    ensures Ascending(Tail(s, x)) && Ascending(Front(s, x))
    ensures k >= x ==> FindIn(Tail(s, x), k) == FindIn(s, k)
    ensures k < x ==> FindIn(Front(s, x), k) == FindIn(s, k)
  {
    var r, rk := Rank(s, x), Rank(s, k);
    RankSplits(s, x);
    RankSplits(s, k);
    if k >= x {
      RankGrows(s, x, k);
      RankIs(Tail(s, x), k, rk - r);
    } else {
      RankGrows(s, k, x);
      RankIs(Front(s, x), k, rk);
    }
  }

  // ---- the operations on permutations ----

  function Back(p: Perm): (r: nat)
    requires PermOk(p)
    ensures r < WIDTH
  {
    assert p.slots[WIDTH - 1] in p.slots;
    p.slots[WIDTH - 1]
  }

  function InsertFromBack(p: Perm, i: nat): Perm
    requires PermOk(p) && i < WIDTH && p.size < WIDTH
  {
    Perm(p.size + 1, p.slots[..i] + [Back(p)] + p.slots[i..WIDTH - 1])
  }

  function RemoveToBack(p: Perm, i: nat): Perm
    requires PermOk(p) && i < p.size
  {
    Perm(p.size - 1, p.slots[..i] + p.slots[i + 1..] + [p.slots[i]])
  }

  function SetSize(p: Perm, n: nat): Perm { Perm(n, p.slots) }

  function CountUp(n: nat): (s: seq<nat>)
    ensures |s| == n && forall i :: 0 <= i < n ==> s[i] == i
  {
    seq(n, i => i)
  }

  function CountDown(n: nat, m: nat): (s: seq<nat>)
    requires n <= m
    ensures |s| == m - n && forall i :: 0 <= i < m - n ==> s[i] == m - 1 - i
  {
    seq(m - n, i requires 0 <= i < m - n => m - 1 - i)
  }

  /** Elements 0..n-1 in order; the free ones are allocated from n up. */
  function MakeSorted(n: nat): (p: Perm)
    requires n <= WIDTH
    ensures PermOk(p) && p.size == n
  {
    Perm(n, CountUp(n) + CountDown(n, WIDTH))
  }

  lemma InsertOk(p: Perm, i: nat)
    requires PermOk(p) && i < WIDTH && p.size < WIDTH
    ensures PermOk(InsertFromBack(p, i))
  {
    var q := InsertFromBack(p, i).slots;
    forall j
      ensures 0 <= j < WIDTH ==>
        q[j] == if j < i then p.slots[j] else if j == i then p.slots[WIDTH - 1] else p.slots[j - 1]
    {
    }
    forall x | x in q ensures x in p.slots { }
  }

  lemma RemoveOk(p: Perm, i: nat)
    requires PermOk(p) && i < p.size
    ensures PermOk(RemoveToBack(p, i))
  {
    var q := RemoveToBack(p, i).slots;
    forall j
      ensures 0 <= j < WIDTH ==>
        q[j] == if j < i then p.slots[j] else if j < WIDTH - 1 then p.slots[j + 1] else p.slots[i]
    {
    }
    forall x | x in q ensures x in p.slots { }
  }

  function Inserted<T>(s: seq<T>, i: nat, e: T): (r: seq<T>)
    requires i <= |s|
    ensures |r| == |s| + 1
    ensures forall j {:trigger r[j]} :: 0 <= j <= |s| ==> r[j] == if j < i then s[j] else if j == i then e else s[j - 1]
  {
    s[..i] + [e] + s[i..]
  }

  function Without<T>(s: seq<T>, i: nat): (r: seq<T>)
    requires i < |s|
    ensures |r| == |s| - 1 && forall j {:trigger r[j]} :: 0 <= j < |r| ==> r[j] == if j < i then s[j] else s[j + 1]
  {
    s[..i] + s[i + 1..]
  }

  // ---- stores into a node ----

  /** Writing the slot at the back of the permutation leaves the listed entries alone. */
  lemma AssignFree(n: Node, s: Slot)
    requires Shaped(n) && n.perm.size < WIDTH
    ensures
      var n' := n.(entry := n.entry[Back(n.perm) := s]);
      Shaped(n') && Listed(n') == Listed(n) && SlotAt(n', WIDTH - 1) == s
  {
    assert Back(n.perm) in n.perm.slots;
    var n' := n.(entry := n.entry[Back(n.perm) := s]);
    forall i | 0 <= i < n.perm.size ensures SlotAt(n', i) == SlotAt(n, i) { assert n.perm.slots[i] in n.perm.slots; }
  }

  /** Overwriting the value of the entry listed at position j. */
  lemma AssignValue(n: Node, j: nat, v: nat)
    requires Shaped(n) && j < n.perm.size
    ensures n.perm.slots[j] < WIDTH
    ensures var n' := n.(entry := n.entry[n.perm.slots[j] := Slot(SlotAt(n, j).key, v)]);
      Shaped(n') && Listed(n') == Listed(n)[j := Slot(Listed(n)[j].key, v)]
  {
    assert n.perm.slots[j] in n.perm.slots;
    var n' := n.(entry := n.entry[n.perm.slots[j] := Slot(SlotAt(n, j).key, v)]);
    forall i | 0 <= i < n.perm.size ensures Listed(n')[i] == Listed(n)[j := Slot(Listed(n)[j].key, v)][i] {
      assert n.perm.slots[i] in n.perm.slots;
    }
  }

  /** Publishing the slot at the back at position i inserts it there. */
  lemma Publish(n: Node, i: nat)
    requires Shaped(n) && n.perm.size < WIDTH && i <= n.perm.size
    ensures var n' := n.(perm := InsertFromBack(n.perm, i));
      Shaped(n') && Listed(n') == Inserted(Listed(n), i, SlotAt(n, WIDTH - 1))
  {
    InsertOk(n.perm, i);
    var n' := n.(perm := InsertFromBack(n.perm, i));
    assert |Listed(n')| == |Listed(n)| + 1;
  }

  lemma Remove(n: Node, i: nat)
    requires Shaped(n) && i < n.perm.size
    ensures var n' := n.(perm := RemoveToBack(n.perm, i)); Shaped(n') && Listed(n') == Without(Listed(n), i)
  {
    RemoveOk(n.perm, i);
  }

  lemma Shrink(n: Node, k: nat)
    requires Shaped(n) && k <= n.perm.size
    ensures var n' := n.(perm := SetSize(n.perm, k)); Shaped(n') && Listed(n') == Listed(n)[..k]
  {
  }

  lemma InsertKeepsOrder(s: seq<Slot>, r: nat, e: Slot)
    requires Ascending(s) && r <= |s| && (forall i :: 0 <= i < r ==> s[i].key < e.key)
      && (forall i :: r <= i < |s| ==> s[i].key > e.key)
    ensures Ascending(Inserted(s, r, e))
  {
    var t := Inserted(s, r, e);
    forall i, j | 0 <= i < j < |t| ensures t[i].key < t[j].key { }
  }

  /** Inserting a new key at its rank keeps the order. */
  lemma InsertSorted(s: seq<Slot>, e: Slot)
    requires Ascending(s) && forall i :: 0 <= i < |s| ==> s[i].key != e.key
    ensures Ascending(Inserted(s, Rank(s, e.key), e))
  {
    RankSplits(s, e.key);
    InsertKeepsOrder(s, Rank(s, e.key), e);
  }

  lemma RankInserted(s: seq<Slot>, e: Slot, k: nat)
    requires Ascending(s) && forall i :: 0 <= i < |s| ==> s[i].key != e.key
    ensures Rank(Inserted(s, Rank(s, e.key), e), k) == if k <= e.key then Rank(s, k) else Rank(s, k) + 1
  {
    var r, rk := Rank(s, e.key), Rank(s, k);
    var t, rt := Inserted(s, r, e), if k <= e.key then rk else rk + 1;
    InsertSorted(s, e);
    RankSplits(s, e.key);
    RankSplits(s, k);
    if k <= e.key { RankGrows(s, k, e.key); } else { RankGrows(s, e.key, k); }
    hide Ascending, Rank;
    forall i | 0 <= i < rt ensures t[i].key < k { }
    forall i | rt <= i < |t| ensures t[i].key >= k { }
    RankIs(t, k, rt);
  }

  /** What a lookup sees after an insertion at the rank. */
  lemma FindInserted(s: seq<Slot>, e: Slot, k: nat)
    requires Ascending(s) && forall i :: 0 <= i < |s| ==> s[i].key != e.key
    ensures FindIn(Inserted(s, Rank(s, e.key), e), k) == if k == e.key then Some(e.value) else FindIn(s, k)
  {
    RankInserted(s, e, k);
    if k <= e.key { RankGrows(s, k, e.key); } else { RankGrows(s, e.key, k); }
    RankSplits(s, k);
    RankSplits(s, e.key);
    hide Ascending, Rank;
  }
}
