/**
 * The four layouts of an inner node of the adaptive radix tree.  Each stands for a map from bytes to
 * children; growing, compacting and shrinking a node keep that map.
 */
module ArtNode {
  import opened Common

  type Byte = x: nat | x < 256

  type Key = seq<Byte>

  /** What a child pointer leads to: its lowest bit tells a leaf from an inner node. */
  datatype Ref = Leaf(key: Key, value: nat) | Ptr(id: nat)

  type Slots = seq<Option<Ref>>

  datatype Kind = N4 | N16 | N48 | N256

  /** `used` is compactCount: slots from there on have never been filled.  `keys` is for N4 and N16, `index` for N48. */
  datatype Layout = Layout(kind: Kind, keys: seq<Byte>, index: seq<nat>, children: Slots, used: nat, count: nat)

  const EMPTY_MARKER: nat := 48

  /** N16 keeps its keys with the sign bit flipped. */
  function Flip(b: Byte): Byte { if b < 128 then b + 128 else b - 128 }

  function Stored(l: Layout, b: Byte): Byte { if l.kind.N16? then Flip(b) else b }

  predicate IsSmall(l: Layout) { l.kind.N4? || l.kind.N16? }

  predicate LiveAt(keys: seq<Byte>, children: Slots, e: Byte, i: nat) {
    i < |keys| && i < |children| && children[i].Some? && keys[i] == e
  }

  /** The first live slot from i on that holds key e. */
  function Scan(keys: seq<Byte>, children: Slots, e: Byte, i: nat): (r: Option<Ref>)
    requires |keys| == |children| && i <= |keys|
    ensures r.None? ==> forall j: nat :: j >= i ==> !LiveAt(keys, children, e, j)
    ensures r.Some? ==> exists j: nat :: j >= i && LiveAt(keys, children, e, j) && r == children[j]
    decreases |keys| - i
  {
    if i == |keys| then None else if LiveAt(keys, children, e, i) then children[i] else Scan(keys, children, e, i + 1)
  }

  /** How many slots are filled. */
  function Live(s: Slots): (n: nat)
    ensures n <= |s| && (n == |s| <==> forall i :: 0 <= i < |s| ==> s[i].Some?)
  {
    if s == [] then 0 else Live(s[..|s| - 1]) + if s[|s| - 1].Some? then 1 else 0
  }

  function Indexed(s: seq<nat>): (n: nat)
    ensures n <= |s|
  {
    if s == [] then 0 else Indexed(s[..|s| - 1]) + if s[|s| - 1] != EMPTY_MARKER then 1 else 0
  }

  ghost predicate Unique(keys: seq<Byte>, children: Slots) {
    forall e: Byte, i: nat, j: nat :: LiveAt(keys, children, e, i) && LiveAt(keys, children, e, j) ==> i == j
  }

  ghost predicate SlotsOk(keys: seq<Byte>, children: Slots, used: nat, count: nat) {
    && |keys| == |children| && count <= used <= |keys| && count == Live(children) && Unique(keys, children)
    && forall j :: used <= j < |children| ==> children[j].None?
  }

  ghost predicate HasByte(index: seq<nat>, j: nat) { exists b: Byte :: b < |index| && index[b] == j }

  ghost predicate IndexOk(index: seq<nat>, children: Slots, used: nat, count: nat) {
    && |index| == 256 && |children| == 48 && count <= used <= 48 && count == Indexed(index)
    && (forall b :: 0 <= b < 256 ==> index[b] <= 48 && (index[b] < 48 ==> children[index[b]].Some?))
    && (forall b, d :: 0 <= b < d < 256 && index[b] < 48 ==> index[b] != index[d])
    && (forall j :: 0 <= j < 48 && children[j].Some? ==> j < used && HasByte(index, j))
  }

  ghost predicate Ok(l: Layout) {
    if IsSmall(l) then |l.keys| == Capacity(l) && SlotsOk(l.keys, l.children, l.used, l.count)
    else if l.kind.N48? then IndexOk(l.index, l.children, l.used, l.count)
    else |l.children| == 256 && l.count == Live(l.children)
  }

  /** The child bound to a byte. */
  function Child(l: Layout, b: Byte): Option<Ref>
    requires Ok(l)
  {
    if IsSmall(l) then Scan(l.keys, l.children, Stored(l, b), 0)
    else if l.kind.N48? then if l.index[b] == EMPTY_MARKER then None else l.children[l.index[b]]
    else l.children[b]
  }

  /** l' is l with byte k bound to o. */
  ghost predicate Binds(l: Layout, l': Layout, k: Byte, o: Option<Ref>) {
    Ok(l) && Ok(l') && forall b: Byte :: Child(l', b) == if b == k then o else Child(l, b)
  }

  ghost predicate SameKids(l: Layout, l': Layout) { Ok(l) && Ok(l') && forall b: Byte :: Child(l', b) == Child(l, b) }

  function Capacity(l: Layout): nat {
    if l.kind.N4? then 4 else if l.kind.N16? then 16 else if l.kind.N48? then 48 else 256
  }

  /** When insert gives up. */
  predicate Full(l: Layout) { if l.kind.N256? then l.count >= 256 else l.used == Capacity(l) }

  // ---- the slots of N4 and N16 ----

  lemma FlipTwice(b: Byte)
    ensures Flip(Flip(b)) == b
  {
  }

  lemma StoredApart(l: Layout, b: Byte, d: Byte)
    ensures Stored(l, b) == Stored(l, d) <==> b == d
  {
  }

  lemma ScanIs(keys: seq<Byte>, children: Slots, e: Byte, i: nat)
    requires |keys| == |children| && Unique(keys, children) && LiveAt(keys, children, e, i)
    ensures Scan(keys, children, e, 0) == children[i]
  {
  }

  lemma {:induction false} LiveSet(s: Slots, i: nat, o: Option<Ref>)
    requires i < |s|
    ensures Live(s[i := o]) == Live(s) - (if s[i].Some? then 1 else 0) + (if o.Some? then 1 else 0)
  {
    var n := |s| - 1;
    if i < n {
      LiveSet(s[..n], i, o);
      assert s[i := o][..n] == s[..n][i := o];
    } else {
      assert s[i := o][..n] == s[..n];
    }
  }

  lemma {:induction false} IndexedSet(s: seq<nat>, i: nat, v: nat)
    requires i < |s|
    ensures Indexed(s[i := v]) == Indexed(s) - (if s[i] != EMPTY_MARKER then 1 else 0)
      + (if v != EMPTY_MARKER then 1 else 0)
  {
    var n := |s| - 1;
    if i < n {
      IndexedSet(s[..n], i, v);
      assert s[i := v][..n] == s[..n][i := v];
    } else {
      assert s[i := v][..n] == s[..n];
    }
  }

  /** Filling the next slot. */
  lemma SlotFilled(keys: seq<Byte>, children: Slots, used: nat, count: nat, e: Byte, c: Ref)
    requires SlotsOk(keys, children, used, count) && used < |keys| && Scan(keys, children, e, 0).None?
    ensures SlotsOk(keys[used := e], children[used := Some(c)], used + 1, count + 1)
    ensures forall d: Byte ::
      Scan(keys[used := e], children[used := Some(c)], d, 0) == if d == e then Some(c) else Scan(keys, children, d, 0)
  {
    var keys', children' := keys[used := e], children[used := Some(c)];
    LiveSet(children, used, Some(c));
    forall d: Byte, i: nat | LiveAt(keys', children', d, i)
      ensures (i == used && d == e) || (i != used && d != e && LiveAt(keys, children, d, i))
    {
      if i != used { assert !LiveAt(keys, children, e, i); }
    }
    forall d: Byte, i: nat | LiveAt(keys, children, d, i) ensures LiveAt(keys', children', d, i) { }
    assert LiveAt(keys', children', e, used);
    assert Unique(keys', children');
    forall d: Byte ensures Scan(keys', children', d, 0) == if d == e then Some(c) else Scan(keys, children, d, 0) {
      ScanAgrees(keys, children, keys', children', d, e, c, used);
    }
  }

  lemma ScanAgrees(keys: seq<Byte>, children: Slots, keys': seq<Byte>, children': Slots, d: Byte, e: Byte, c: Ref,
        at: nat)
    requires |keys| == |children| == |keys'| == |children'| && Unique(keys, children) && Unique(keys', children')
      && LiveAt(keys', children', e, at) && children'[at] == Some(c)
    requires forall i: nat :: d != e ==>
      (LiveAt(keys', children', d, i) <==> LiveAt(keys, children, d, i))
      && (LiveAt(keys, children, d, i) ==> children'[i] == children[i])
    ensures Scan(keys', children', d, 0) == if d == e then Some(c) else Scan(keys, children, d, 0)
  {
    if d == e { ScanIs(keys', children', e, at); }
    else if Scan(keys, children, d, 0).Some? {
      var j: nat :| LiveAt(keys, children, d, j) && Scan(keys, children, d, 0) == children[j];
      ScanIs(keys', children', d, j);
    }
  }

  /** Clearing a slot. */
  lemma SlotCleared(keys: seq<Byte>, children: Slots, used: nat, count: nat, e: Byte, i: nat)
    requires SlotsOk(keys, children, used, count) && LiveAt(keys, children, e, i)
    ensures count > 0 && SlotsOk(keys, children[i := None], used, count - 1)
    ensures forall d: Byte ::
      Scan(keys, children[i := None], d, 0) == if d == e then None else Scan(keys, children, d, 0)
  {
    var children' := children[i := None];
    LiveSet(children, i, None);
    forall d: Byte, j: nat ensures LiveAt(keys, children', d, j) <==> LiveAt(keys, children, d, j) && j != i { }
    assert Unique(keys, children');
    forall d: Byte ensures Scan(keys, children', d, 0) == if d == e then None else Scan(keys, children, d, 0) {
      if d == e {
        forall j: nat ensures !LiveAt(keys, children', e, j) { }
      } else if Scan(keys, children, d, 0).Some? {
        var j: nat :| LiveAt(keys, children, d, j) && Scan(keys, children, d, 0) == children[j];
        ScanIs(keys, children', d, j);
      }
    }
  }

  /** Redirecting a live slot. */
  lemma SlotChanged(keys: seq<Byte>, children: Slots, used: nat, count: nat, e: Byte, i: nat, c: Ref)
    requires SlotsOk(keys, children, used, count) && LiveAt(keys, children, e, i)
    ensures SlotsOk(keys, children[i := Some(c)], used, count)
    ensures forall d: Byte ::
      Scan(keys, children[i := Some(c)], d, 0) == if d == e then Some(c) else Scan(keys, children, d, 0)
  {
    var children' := children[i := Some(c)];
    LiveSet(children, i, Some(c));
    forall d: Byte, j: nat ensures LiveAt(keys, children', d, j) <==> LiveAt(keys, children, d, j) { }
    assert Unique(keys, children');
    forall d: Byte ensures Scan(keys, children', d, 0) == if d == e then Some(c) else Scan(keys, children, d, 0) {
      if d != e && LiveAt(keys, children, d, i) { assert false; }
      ScanAgrees(keys, children, keys, children', d, e, c, i);
    }
  }

  // ---- the index of N48 ----

  lemma IndexFilled(index: seq<nat>, children: Slots, used: nat, count: nat, k: Byte, c: Ref)
    requires IndexOk(index, children, used, count) && used < 48 && index[k] == EMPTY_MARKER
    ensures IndexOk(index[k := used], children[used := Some(c)], used + 1, count + 1)
    ensures forall b: Byte :: index[b] < 48 ==> index[b] != used
  {
    var index', children' := index[k := used], children[used := Some(c)];
    IndexedSet(index, k, used);
    assert children[used].None?;
    assert index'[k] == used;
    forall j | 0 <= j < 48 && children'[j].Some? ensures j < used + 1 && HasByte(index', j) {
      if j != used {
        var b: Byte :| index[b] == j;
        assert index'[b] == j;
      }
    }
  }

  lemma IndexCleared(index: seq<nat>, children: Slots, used: nat, count: nat, k: Byte)
    requires IndexOk(index, children, used, count) && index[k] < 48
    ensures count > 0 && IndexOk(index[k := EMPTY_MARKER], children[index[k] := None], used, count - 1)
  {
    var index', children' := index[k := EMPTY_MARKER], children[index[k] := None];
    IndexedSet(index, k, EMPTY_MARKER);
    forall j | 0 <= j < 48 && children'[j].Some? ensures j < used && HasByte(index', j) {
      var b: Byte :| index[b] == j;
      assert index'[b] == j;
    }
    assert Indexed(index') >= 0;
  }

  lemma IndexChanged(index: seq<nat>, children: Slots, used: nat, count: nat, k: Byte, c: Ref)
    requires IndexOk(index, children, used, count) && index[k] < 48
    ensures IndexOk(index, children[index[k] := Some(c)], used, count)
  {
    hide HasByte;
  }

  // ---- the operations of one node ----

  method GetChild(l: Layout, k: Byte) returns (c: Option<Ref>)
    requires Ok(l)
    ensures c == Child(l, k)
  {
    if !IsSmall(l) { return Child(l, k); }
    hide Unique;
    var i, e := 0, Stored(l, k);
    while i < |l.keys|
      invariant i <= |l.keys| && Scan(l.keys, l.children, e, 0) == Scan(l.keys, l.children, e, i)
    {
      if l.children[i].Some? && l.keys[i] == e { return l.children[i]; }
      i := i + 1;
    }
    return None;
  }

  /** Where a bound byte sits. */
  method ChildPos(l: Layout, k: Byte) returns (i: nat)
    requires Ok(l) && IsSmall(l) && Child(l, k).Some?
    ensures LiveAt(l.keys, l.children, Stored(l, k), i)
  {
    hide Unique;
    i := 0;
    var e := Stored(l, k);
    while !(l.children[i].Some? && l.keys[i] == e)
      invariant i < |l.keys| && Scan(l.keys, l.children, e, 0) == Scan(l.keys, l.children, e, i)
      decreases |l.keys| - i
    {
      i := i + 1;
    }
  }

  method Change(l: Layout, k: Byte, c: Ref) returns (l': Layout)
    requires Ok(l) && Child(l, k).Some?
    ensures Binds(l, l', k, Some(c)) && l'.kind == l.kind && l'.count == l.count
  {
    if IsSmall(l) {
      var i := ChildPos(l, k);
      l' := l.(children := l.children[i := Some(c)]);
      SlotChanged(l.keys, l.children, l.used, l.count, Stored(l, k), i, c);
      hide SlotsOk;
      forall b: Byte ensures Child(l', b) == if b == k then Some(c) else Child(l, b) { StoredApart(l, b, k); }
    } else if l.kind.N48? {
      IndexChanged(l.index, l.children, l.used, l.count, k, c);
      l' := l.(children := l.children[l.index[k] := Some(c)]);
    } else {
      LiveSet(l.children, k, Some(c));
      l' := l.(children := l.children[k := Some(c)]);
    }
  }

  /** The scan for a free slot. */
  method FirstFree(children: Slots, from: nat) returns (at: nat)
    requires from < |children|
    ensures from <= at <= |children| && (at < |children| ==> children[at].None?)
    ensures forall j :: from <= j < at ==> children[j].Some?
  {
    at := from;
    while at < |children| && children[at].Some?
      invariant from <= at <= |children| && forall j :: from <= j < at ==> children[j].Some?
    {
      at := at + 1;
    }
  }

  method Insert(l: Layout, k: Byte, c: Ref) returns (ok: bool, l': Layout)
    requires Ok(l) && Child(l, k).None?
    ensures ok <==> !Full(l)
    ensures ok ==>
      && Binds(l, l', k, Some(c)) && l'.kind == l.kind && l'.count == l.count + 1
      && (!l.kind.N256? ==> l'.used == l.used + 1)
    ensures !ok ==> l' == l
  {
    if Full(l) { return false, l; }
    if IsSmall(l) {
      var e := Stored(l, k);
      l' := l.(keys := l.keys[l.used := e], children := l.children[l.used := Some(c)], used := l.used + 1,
        count := l.count + 1);
      SlotFilled(l.keys, l.children, l.used, l.count, e, c);
      hide SlotsOk;
      forall b: Byte ensures Child(l', b) == if b == k then Some(c) else Child(l, b) { StoredApart(l, b, k); }
    } else if l.kind.N48? {
      var at := FirstFree(l.children, l.used);
      assert l.children[l.used].None?;
      IndexFilled(l.index, l.children, l.used, l.count, k, c);
      l' := l.(index := l.index[k := at], children := l.children[at := Some(c)], used := at + 1, count := l.count + 1);
      hide IndexOk;
    } else {
      LiveSet(l.children, k, Some(c));
      l' := l.(children := l.children[k := Some(c)], count := l.count + 1);
    }
    return true, l';
  }

  /** How many children a layout may lose before it is due to shrink. */
  function Least(l: Layout): nat { if l.kind.N4? then 0 else if l.kind.N16? then 3 else if l.kind.N48? then 12 else 37 }

  method Remove(l: Layout, k: Byte, force: bool) returns (ok: bool, l': Layout)
    requires Ok(l) && Child(l, k).Some?
    ensures ok <==> force || l.kind.N4? || l.count > Least(l)
    ensures ok ==> Binds(l, l', k, None) && l'.kind == l.kind && l.count == l'.count + 1
    ensures !ok ==> l' == l
  {
    if !l.kind.N4? && l.count <= Least(l) && !force { return false, l; }
    if IsSmall(l) {
      var i := ChildPos(l, k);
      SlotCleared(l.keys, l.children, l.used, l.count, Stored(l, k), i);
      l' := l.(children := l.children[i := None], count := l.count - 1);
      hide SlotsOk;
      forall b: Byte ensures Child(l', b) == if b == k then None else Child(l, b) { StoredApart(l, b, k); }
    } else if l.kind.N48? {
      IndexCleared(l.index, l.children, l.used, l.count, k);
      l' := l.(index := l.index[k := EMPTY_MARKER], children := l.children[l.index[k] := None], count := l.count - 1);
    } else {
      LiveSet(l.children, k, None);
      l' := l.(children := l.children[k := None], count := l.count - 1);
    }
    return true, l';
  }

  // ---- copies ----

  function Blank(n: nat): Slots { seq(n, i => None) }

  function New(kind: Kind): Layout {
    match kind
    case N4 => Layout(N4, seq(4, i => 0), [], Blank(4), 0, 0)
    case N16 => Layout(N16, seq(16, i => 0), [], Blank(16), 0, 0)
    case N48 => Layout(N48, [], seq(256, i => EMPTY_MARKER), Blank(48), 0, 0)
    case N256 => Layout(N256, [], [], Blank(256), 0, 0)
  }

  lemma {:induction false} BlankLive(n: nat)
    ensures Live(Blank(n)) == 0
  {
    if n > 0 { BlankLive(n - 1); assert Blank(n)[..n - 1] == Blank(n - 1); }
  }

  lemma {:induction false} BlankIndexed(n: nat)
    ensures Indexed(seq(n, i => EMPTY_MARKER)) == 0
  {
    if n > 0 { BlankIndexed(n - 1); assert seq(n, i => EMPTY_MARKER)[..n - 1] == seq(n - 1, i => EMPTY_MARKER); }
  }

  /** A node nothing has been put into. */
  ghost predicate Untouched(l: Layout) { Ok(l) && l.used == 0 && l.count == 0 && forall b: Byte :: Child(l, b).None? }

  lemma NewUntouched(kind: Kind)
    ensures Untouched(New(kind))
  {
    BlankLive(Capacity(New(kind)));
    BlankIndexed(256);
  }

  lemma {:induction false} LiveUpTo(s: Slots, i: nat)
    requires i < |s|
    ensures Live(s[..i + 1]) == Live(s[..i]) + (if s[i].Some? then 1 else 0) && Live(s[..i + 1]) <= Live(s)
    decreases |s| - i
  {
    assert s[..i + 1][..i] == s[..i];
    if i + 1 < |s| { LiveUpTo(s, i + 1); } else { assert s[..i + 1] == s; }
  }

  lemma {:induction false} IndexedUpTo(s: seq<nat>, i: nat)
    requires i < |s|
    ensures Indexed(s[..i + 1]) == Indexed(s[..i]) + (if s[i] != EMPTY_MARKER then 1 else 0)
      && Indexed(s[..i + 1]) <= Indexed(s)
    decreases |s| - i
  {
    assert s[..i + 1][..i] == s[..i];
    if i + 1 < |s| { IndexedUpTo(s, i + 1); } else { assert s[..i + 1] == s; }
  }

  /** Slots beyond `used` add nothing. */
  lemma {:induction false} LiveUsed(s: Slots, used: nat)
    requires used <= |s| && forall j :: used <= j < |s| ==> s[j].None?
    ensures Live(s[..used]) == Live(s)
    decreases |s| - used
  {
    if used < |s| { LiveUpTo(s, used); LiveUsed(s, used + 1); } else { assert s[..used] == s; }
  }

  /** What the first i slots bind. */
  function Firsts(l: Layout, i: nat, b: Byte): Option<Ref>
    requires |l.keys| == |l.children| && i <= |l.keys|
  {
    Scan(l.keys[..i], l.children[..i], Stored(l, b), 0)
  }

  lemma FirstsStep(l: Layout, i: nat, b: Byte)
    requires Ok(l) && IsSmall(l) && i < |l.keys|
    ensures l.children[i].Some? && Stored(l, b) == l.keys[i] ==>
      Firsts(l, i, b).None? && Firsts(l, i + 1, b) == l.children[i]
    ensures !(l.children[i].Some? && Stored(l, b) == l.keys[i]) ==> Firsts(l, i + 1, b) == Firsts(l, i, b)
  {
    var e := Stored(l, b);
    var k, c, k', c' := l.keys[..i], l.children[..i], l.keys[..i + 1], l.children[..i + 1];
    forall d: Byte, j: nat ensures LiveAt(k, c, d, j) <==> j < i && LiveAt(l.keys, l.children, d, j) { }
    forall d: Byte, j: nat ensures LiveAt(k', c', d, j) <==> j < i + 1 && LiveAt(l.keys, l.children, d, j) { }
    assert Unique(k', c');
    if LiveAt(l.keys, l.children, e, i) {
      forall j: nat ensures !LiveAt(k, c, e, j) { }
      ScanIs(k', c', e, i);
    } else if Firsts(l, i, b).Some? {
      var j: nat :| LiveAt(k, c, e, j) && Firsts(l, i, b) == c[j];
      ScanIs(k', c', e, j);
    }
  }

  lemma FirstsAll(l: Layout, b: Byte)
    requires Ok(l) && IsSmall(l)
    ensures Firsts(l, l.used, b) == Child(l, b)
  {
    var e, i := Stored(l, b), l.used;
    forall j: nat ensures LiveAt(l.keys[..i], l.children[..i], e, j) <==> LiveAt(l.keys, l.children, e, j) { }
    if Child(l, b).Some? {
      var j: nat :| LiveAt(l.keys, l.children, e, j) && Child(l, b) == l.children[j];
      assert LiveAt(l.keys[..i], l.children[..i], e, j);
    }
  }

  /** copyTo of N4 and N16. */
  method CopySlots(src: Layout, dst: Layout) returns (l: Layout)
    requires Ok(src) && IsSmall(src) && Untouched(dst) && src.count <= Capacity(dst)
    ensures SameKids(src, l) && l.kind == dst.kind && l.count == src.count && (!l.kind.N256? ==> l.used == l.count)
  {
    hide Ok, Scan, Child;
    l := dst;
    var i := 0;
    CopyStarts(src, dst);
    while i < src.used
      invariant Ok(src) && Ok(l) && i <= src.used <= |src.keys| == |src.children| && l.kind == dst.kind
      invariant l.count == Live(src.children[..i]) && (!l.kind.N256? ==> l.used == l.count)
      invariant forall b: Byte :: Child(l, b) == Firsts(src, i, b)
    {
      LiveUpTo(src.children, i);
      ghost var was := l;
      if src.children[i].Some? {
        var k := Stored(src, src.keys[i]);
        FlipTwice(src.keys[i]);
        FirstsStep(src, i, k);
        CountIsLive(src);
        var ok;
        ok, l := Insert(l, k, src.children[i].value);
      }
      forall b: Byte ensures Child(l, b) == Firsts(src, i + 1, b) {
        FirstsStep(src, i, b);
        StoredApart(src, b, Stored(src, src.keys[i]));
        FlipTwice(src.keys[i]);
      }
      i := i + 1;
    }
    CountIsLive(src);
    forall b: Byte ensures Child(l, b) == Child(src, b) { FirstsAll(src, b); }
  }

  lemma CopyStarts(src: Layout, dst: Layout)
    requires Ok(src) && IsSmall(src) && Untouched(dst)
    ensures src.used <= |src.keys| == |src.children| && Live(src.children[..0]) == 0
    ensures forall b: Byte :: Child(dst, b) == Firsts(src, 0, b)
  {
    assert src.children[..0] == [];
  }

  lemma CountIsLive(l: Layout)
    requires Ok(l) && IsSmall(l)
    ensures l.used <= |l.children| && l.count == Live(l.children) == Live(l.children[..l.used])
  {
    LiveUsed(l.children, l.used);
  }

  /** How many of the first b bytes are bound. */
  function Counted(l: Layout, b: nat): nat
    requires Ok(l) && !IsSmall(l) && b <= 256
  {
    if l.kind.N48? then Indexed(l.index[..b]) else Live(l.children[..b])
  }

  lemma CountedStep(l: Layout, b: Byte)
    requires Ok(l) && !IsSmall(l)
    ensures Counted(l, b + 1) == Counted(l, b) + (if Child(l, b).Some? then 1 else 0) && Counted(l, b + 1) <= l.count
  {
    if l.kind.N48? { IndexedUpTo(l.index, b); } else { LiveUpTo(l.children, b); }
  }

  lemma CountedEnds(l: Layout)
    requires Ok(l) && !IsSmall(l)
    ensures Counted(l, 0) == 0 && Counted(l, 256) == l.count
  {
    if l.kind.N48? {
      assert l.index[..0] == [] && l.index[..256] == l.index;
    } else {
      assert l.children[..0] == [] && l.children[..256] == l.children;
    }
  }

  /** copyTo of N48 and N256. */
  method CopyBytes(src: Layout, dst: Layout) returns (l: Layout)
    requires Ok(src) && !IsSmall(src) && Untouched(dst) && src.count <= Capacity(dst)
    ensures SameKids(src, l) && l.kind == dst.kind && l.count == src.count && (!l.kind.N256? ==> l.used == l.count)
  {
    hide Ok, Child, Counted;
    l := dst;
    var i: nat := 0;
    CountedEnds(src);
    while i < 256
      invariant Ok(src) && Ok(l) && i <= 256 && l.kind == dst.kind && l.count == Counted(src, i)
        && (!l.kind.N256? ==> l.used == l.count)
      invariant forall b: Byte :: Child(l, b) == if b < i then Child(src, b) else None
    {
      CountedStep(src, i);
      var c := GetChild(src, i);
      if c.Some? {
        var ok;
        ok, l := Insert(l, i, c.value);
      }
      i := i + 1;
    }
  }

  method CopyTo(src: Layout, dst: Layout) returns (l: Layout)
    requires Ok(src) && Untouched(dst) && src.count <= Capacity(dst)
    ensures SameKids(src, l) && l.kind == dst.kind && l.count == src.count && (!l.kind.N256? ==> l.used == l.count)
  {
    if IsSmall(src) { l := CopySlots(src, dst); } else { l := CopyBytes(src, dst); }
  }

  // ---- growing, compacting and shrinking ----

  function Bigger(kind: Kind): Kind { if kind.N4? then N16 else if kind.N16? then N48 else N256 }

  function Smaller(kind: Kind): Kind { if kind.N16? then N4 else if kind.N48? then N16 else N48 }

  /** A full node with holes is compacted rather than grown. */
  predicate Compacts(l: Layout) {
    && !l.kind.N256? && l.used == Capacity(l)
    && (if l.kind.N4? then l.count <= 3 else if l.kind.N16? then l.count <= 14 else l.count != 48)
  }

  /** What a node that is not the root never falls below. */
  function Floor(kind: Kind): nat { if kind.N4? then 2 else if kind.N16? then 3 else if kind.N48? then 12 else 37 }

  predicate Sized(l: Layout) { l.count >= Floor(l.kind) }

  /** A byte that is not bound leaves room in a 256-way node. */
  lemma NeverFull(l: Layout, k: Byte)
    requires Ok(l) && l.kind.N256? && Child(l, k).None?
    ensures !Full(l)
  {
  }

  lemma Holed(l: Layout)
    requires Ok(l) && !l.kind.N256?
    ensures l.count <= l.used <= Capacity(l)
  {
  }

  /** insertCompact: the copy always has room. */
  method InsertCompact(l: Layout, k: Byte, c: Ref) returns (ok: bool, l': Layout)
    requires Ok(l) && Child(l, k).None? && Compacts(l)
    ensures ok && Binds(l, l', k, Some(c)) && l'.kind == l.kind && l'.count == l.count + 1
  {
    hide Ok, Child;
    NewUntouched(l.kind);
    Holed(l);
    var copy := CopyTo(l, New(l.kind));
    ok, l' := Insert(copy, k, c);
  }

  /** insertGrow: into the node itself, or into a copy of the next size. */
  method InsertGrow(l: Layout, k: Byte, c: Ref) returns (l': Layout, copied: bool)
    requires Ok(l) && Child(l, k).None? && !l.kind.N256? && !Compacts(l)
    ensures Binds(l, l', k, Some(c)) && l'.count == l.count + 1 && (copied <==> Full(l))
      && l'.kind == if copied then Bigger(l.kind) else l.kind
    ensures copied ==> Sized(l')
  {
    hide Ok, Child;
    var ok;
    ok, l' := Insert(l, k, c);
    if ok { return l', false; }
    NewUntouched(Bigger(l.kind));
    Holed(l);
    var copy := CopyTo(l, New(Bigger(l.kind)));
    NeverFullCopy(l, copy, k);
    ok, l' := Insert(copy, k, c);
    return l', true;
  }

  lemma NeverFullCopy(l: Layout, copy: Layout, k: Byte)
    requires Ok(l) && !l.kind.N256? && SameKids(l, copy) && copy.kind == Bigger(l.kind) && copy.count == l.count
      && (!copy.kind.N256? ==> copy.used == copy.count)
    requires Child(l, k).None?
    ensures !Full(copy)
  {
    Holed(l);
    hide Live, Indexed, Scan;
    assert Child(copy, k).None?;
    if copy.kind.N256? { NeverFull(copy, k); }
  }

  /** insertAndUnlock. */
  method InsertChild(l: Layout, k: Byte, c: Ref) returns (l': Layout, copied: bool)
    requires Ok(l) && Child(l, k).None?
    ensures Binds(l, l', k, Some(c)) && l'.count == l.count + 1
    ensures (l.kind.N256? ==> !copied) && (!copied ==> l'.kind == l.kind) && (Sized(l) ==> Sized(l'))
  {
    hide Ok, Child;
    if l.kind.N256? {
      NeverFull(l, k);
      var ok;
      ok, l' := Insert(l, k, c);
      return l', false;
    }
    if Compacts(l) {
      var ok;
      ok, l' := InsertCompact(l, k, c);
      return l', true;
    }
    l', copied := InsertGrow(l, k, c);
  }

  /** removeAndShrink. */
  method RemoveShrink(l: Layout, k: Byte, isRoot: bool) returns (l': Layout, copied: bool)
    requires Ok(l) && Child(l, k).Some? && !l.kind.N4? && (isRoot || Sized(l))
    ensures Binds(l, l', k, None) && l.count == l'.count + 1 && l'.kind == (if copied then Smaller(l.kind) else l.kind)
    ensures (isRoot ==> !copied) && (!isRoot ==> Sized(l'))
  {
    hide Ok, Child;
    var ok;
    ok, l' := Remove(l, k, isRoot);
    if ok { return l', false; }
    NewUntouched(Smaller(l.kind));
    ok, l' := Remove(l, k, true);
    var copy := CopyTo(l', New(Smaller(l.kind)));
    return copy, true;
  }

  /** removeAndUnlock. */
  method RemoveChild(l: Layout, k: Byte, isRoot: bool) returns (l': Layout, copied: bool)
    requires Ok(l) && Child(l, k).Some? && (isRoot || (Sized(l) && l.count != 2))
    ensures Binds(l, l', k, None) && l.count == l'.count + 1
    ensures (isRoot ==> !copied) && (!copied ==> l'.kind == l.kind) && (!isRoot ==> Sized(l'))
  {
    hide Ok, Child;
    if l.kind.N4? {
      var ok;
      ok, l' := Remove(l, k, false);
      return l', false;
    }
    l', copied := RemoveShrink(l, k, isRoot);
  }

  // ---- looking at the children ----

  /** Every filled slot is bound to some byte. */
  lemma SlotBound(l: Layout, i: nat) returns (b: Byte)
    requires Ok(l) && i < |l.children| && l.children[i].Some?
    ensures Child(l, b) == l.children[i]
  {
    if IsSmall(l) {
      b := Stored(l, l.keys[i]);
      FlipTwice(l.keys[i]);
      ScanIs(l.keys, l.children, l.keys[i], i);
    } else if l.kind.N48? {
      b :| b < 256 && l.index[b] == i;
    } else {
      b := i;
    }
  }

  /** And every bound byte has a filled slot. */
  lemma ByteFilled(l: Layout, b: Byte) returns (i: nat)
    requires Ok(l) && Child(l, b).Some?
    ensures i < |l.children| && l.children[i] == Child(l, b)
  {
    if IsSmall(l) {
      i :| LiveAt(l.keys, l.children, Stored(l, b), i) && Child(l, b) == l.children[i];
    } else if l.kind.N48? {
      i := l.index[b];
    } else {
      i := b;
    }
  }

  lemma {:induction false} SomeLive(s: Slots) returns (i: nat)
    requires Live(s) > 0
    ensures i < |s| && s[i].Some?
  {
    if s[|s| - 1].Some? { i := |s| - 1; } else { i := SomeLive(s[..|s| - 1]); }
  }

  lemma {:induction false} SomeIndexed(s: seq<nat>) returns (i: nat)
    requires Indexed(s) > 0
    ensures i < |s| && s[i] != EMPTY_MARKER
  {
    if s[|s| - 1] != EMPTY_MARKER { i := |s| - 1; } else { i := SomeIndexed(s[..|s| - 1]); }
  }

  lemma SomeFilled(l: Layout) returns (i: nat)
    requires Ok(l) && l.count > 0
    ensures i < |l.children| && l.children[i].Some?
  {
    if l.kind.N48? { var b := SomeIndexed(l.index); i := l.index[b]; } else { i := SomeLive(l.children); }
  }

  /** Two children hang at two bytes. */
  lemma TwoBound(l: Layout) returns (b: Byte, d: Byte)
    requires Ok(l) && l.count >= 2
    ensures b != d && Child(l, b).Some? && Child(l, d).Some?
  {
    if l.kind.N48? {
      b, d := TwoIndexed(l.index);
    } else {
      var i, j := TwoFilled(l.children);
      if IsSmall(l) {
        b, d := Stored(l, l.keys[i]), Stored(l, l.keys[j]);
        FlipTwice(l.keys[i]);
        FlipTwice(l.keys[j]);
        assert LiveAt(l.keys, l.children, l.keys[i], i) && LiveAt(l.keys, l.children, l.keys[j], j);
        ScanIs(l.keys, l.children, l.keys[i], i);
        ScanIs(l.keys, l.children, l.keys[j], j);
      } else {
        b, d := i, j;
      }
    }
  }

  lemma TwoFilled(s: Slots) returns (i: nat, j: nat)
    requires Live(s) >= 2
    ensures i < |s| && j < |s| && i != j && s[i].Some? && s[j].Some?
  {
    i := SomeLive(s);
    LiveSet(s, i, None);
    j := SomeLive(s[i := None]);
  }

  lemma TwoIndexed(s: seq<nat>) returns (i: nat, j: nat)
    requires Indexed(s) >= 2
    ensures i < |s| && j < |s| && i != j && s[i] != EMPTY_MARKER && s[j] != EMPTY_MARKER
  {
    i := SomeIndexed(s);
    IndexedSet(s, i, EMPTY_MARKER);
    j := SomeIndexed(s[i := EMPTY_MARKER]);
  }

  /** getAnyChild: a leaf if there is one. */
  method AnyChild(l: Layout) returns (c: Ref, ghost b: Byte)
    requires Ok(l) && l.count > 0
    ensures Child(l, b) == Some(c)
    ensures c.Ptr? ==> forall d: Byte :: Child(l, d).Some? ==> Child(l, d).value.Ptr?
  {
    ghost var w := SomeFilled(l);
    var i := 0;
    var any: Option<Ref> := None;
    while i < |l.children|
      invariant i <= |l.children| && (any.Some? ==> any.value.Ptr? && any in l.children[..i]) && (i > w ==> any.Some?)
      invariant forall j :: 0 <= j < i && l.children[j].Some? ==> l.children[j].value.Ptr?
    {
      if l.children[i].Some? {
        if l.children[i].value.Leaf? {
          b := SlotBound(l, i);
          return l.children[i].value, b;
        }
        any := l.children[i];
      }
      i := i + 1;
    }
    ghost var at: nat :| at < |l.children| && l.children[at] == any;
    b := SlotBound(l, at);
    forall d: Byte | Child(l, d).Some? ensures Child(l, d).value.Ptr? { var j := ByteFilled(l, d); }
    return any.value, b;
  }

  lemma {:induction false} NoneLive(s: Slots)
    requires Live(s) == 0
    ensures forall i :: 0 <= i < |s| ==> s[i].None?
  {
    if s != [] { NoneLive(s[..|s| - 1]); assert forall i :: 0 <= i < |s| - 1 ==> s[i] == s[..|s| - 1][i]; }
  }

  /** With two slots filled, the others are empty. */
  lemma TwoLive(s: Slots, i: nat, j: nat)
    requires Live(s) == 2 && i < |s| && j < |s| && i != j && s[i].Some? && s[j].Some?
    ensures forall x :: 0 <= x < |s| && x != i && x != j ==> s[x].None?
  {
    LiveSet(s, i, None);
    LiveSet(s[i := None], j, None);
    NoneLive(s[i := None][j := None]);
    assert forall x :: 0 <= x < |s| && x != i && x != j ==> s[x] == s[i := None][j := None][x];
  }

  lemma AnotherLive(s: Slots, i: nat) returns (j: nat)
    requires Live(s) == 2 && i < |s| && s[i].Some?
    ensures j < |s| && j != i && s[j].Some?
  {
    LiveSet(s, i, None);
    j := SomeLive(s[i := None]);
  }

  /** getSecondChild of a 4-way node with two children. */
  method SecondChild(l: Layout, k: Byte) returns (c: Ref, d: Byte)
    requires Ok(l) && l.kind.N4? && l.count == 2 && Child(l, k).Some?
    ensures d != k && Child(l, d) == Some(c) && forall b: Byte :: b != k && b != d ==> Child(l, b).None?
  {
    ghost var at: nat :| LiveAt(l.keys, l.children, k, at);
    ghost var j := AnotherLive(l.children, at);
    assert LiveAt(l.keys, l.children, l.keys[j], j);
    var i := 0;
    while !(l.children[i].Some? && l.keys[i] != k)
      invariant i <= j
      decreases j - i
    {
      i := i + 1;
    }
    c, d := l.children[i].value, l.keys[i];
    assert LiveAt(l.keys, l.children, d, i);
    ScanIs(l.keys, l.children, d, i);
    TwoLive(l.children, at, i);
    forall b: Byte | b != k && b != d ensures Child(l, b).None? {
      forall x: nat ensures !LiveAt(l.keys, l.children, b, x) { }
    }
  }

  /** getCount: counts up to three. */
  method GetCount(l: Layout) returns (n: nat)
    requires Ok(l)
    ensures n == if l.count < 3 then l.count else 3
  {
    if l.kind.N48? { n := CountIndex(l.index); return; }
    var i, end := 0, if IsSmall(l) then l.used else |l.children|;
    n := 0;
    assert l.children[..0] == [];
    LiveUsed(l.children, end);
    while i < end && n < 3
      invariant i <= end && n == Live(l.children[..i]) <= Live(l.children) && n <= 3
    {
      LiveUpTo(l.children, i);
      if l.children[i].Some? { n := n + 1; }
      i := i + 1;
    }
  }

  method CountIndex(index: seq<nat>) returns (n: nat)
    ensures n == if Indexed(index) < 3 then Indexed(index) else 3
  {
    var i := 0;
    n := 0;
    assert index[..0] == [] && index[..|index|] == index;
    while i < |index| && n < 3
      invariant i <= |index| && n == Indexed(index[..i]) <= Indexed(index) && n <= 3
    {
      IndexedUpTo(index, i);
      if index[i] != EMPTY_MARKER { n := n + 1; }
      i := i + 1;
    }
  }
}
