/** String keys of Masstree: cut into 8-byte slices, each read as a big-endian number. */
module MassStrings {
  import opened Common

  type Byte = x: nat | x < 256

  type Str = seq<Byte>

  const SLICE: nat := 8

  /** A string holds no NUL byte. */
  predicate NoNul(s: Str) { forall i :: 0 <= i < |s| ==> s[i] != 0 }

  /** The bytes of a string, followed by zeros. */
  function At(s: Str, p: nat): Byte { if p < |s| then s[p] else 0 }

  function Slice(s: Str, i: nat): (r: seq<Byte>)
    ensures |r| == SLICE && forall j :: 0 <= j < SLICE ==> r[j] == At(s, SLICE * i + j)
  {
    var p := SLICE * i;
    [At(s, p), At(s, p + 1), At(s, p + 2), At(s, p + 3), At(s, p + 4), At(s, p + 5), At(s, p + 6), At(s, p + 7)]
  }

  /** Big-endian value. */
  function Value(bs: seq<Byte>): nat { if bs == [] then 0 else Value(bs[..|bs| - 1]) * 256 + bs[|bs| - 1] }

  /** Slice i of the key, as the tree compares it. */
  function Word(s: Str, i: nat): nat { Value(Slice(s, i)) }

  /** How many slices hold bytes of s. */
  function Slices(s: Str): nat { (|s| + SLICE - 1) / SLICE }

  /** strcmp: the first difference decides. */
  predicate FirstDiff(s: Str, t: Str, p: nat) {
    At(s, p) != At(t, p) && forall q: nat :: q < p ==> At(s, q) == At(t, q)
  }

  ghost predicate Less(s: Str, t: Str) { exists p: nat :: FirstDiff(s, t, p) && At(s, p) < At(t, p) }

  // ---- one slice ----

  predicate DiffAt(a: seq<Byte>, b: seq<Byte>, j: nat) { j < |a| && j < |b| && a[j] != b[j] && a[..j] == b[..j] }

  /** Equal-length byte strings compare like their values. */
  lemma {:induction false} ValueOrder(a: seq<Byte>, b: seq<Byte>)
    requires |a| == |b|
    ensures Value(a) == Value(b) <==> a == b
    ensures forall j: nat :: DiffAt(a, b, j) ==> (Value(a) < Value(b) <==> a[j] < b[j])
  {
    if a != [] {
      var n := |a| - 1;
      var a', b' := a[..n], b[..n];
      ValueOrder(a', b');
      assert a == a' + [a[n]] && b == b' + [b[n]];
      forall j: nat | DiffAt(a, b, j) ensures Value(a) < Value(b) <==> a[j] < b[j] {
        if j < n {
          assert a'[..j] == a[..j] && b'[..j] == b[..j];
          assert DiffAt(a', b', j);
        } else {
          assert a' == a[..j] && b' == b[..j];
        }
      }
    }
  }

  lemma WordsEqual(s: Str, t: Str, i: nat)
    ensures Word(s, i) == Word(t, i) <==> Slice(s, i) == Slice(t, i)
  {
    ValueOrder(Slice(s, i), Slice(t, i));
  }

  /** The slice with the first difference is the first that differs, and compares like the strings. */
  lemma FirstWord(s: Str, t: Str, p: nat)
    requires FirstDiff(s, t, p)
    ensures
      var i := p / SLICE;
      Word(s, i) != Word(t, i) && (Word(s, i) < Word(t, i) <==> At(s, p) < At(t, p)) && forall j: nat :: j < i ==>
        Word(s, j) == Word(t, j)
  {
    var i, j := p / SLICE, p % SLICE;
    var a, b := Slice(s, i), Slice(t, i);
    assert p == SLICE * i + j;
    assert a[..j] == b[..j];
    assert DiffAt(a, b, j);
    ValueOrder(a, b);
    forall l: nat | l < i ensures Word(s, l) == Word(t, l) {
      assert Slice(s, l) == Slice(t, l);
      WordsEqual(s, t, l);
    }
  }

  lemma SameString(s: Str, t: Str)
    requires NoNul(s) && NoNul(t) && |s| <= |t| && forall q: nat :: q <= |s| ==> At(s, q) == At(t, q)
    ensures s == t
  {
    assert At(t, |s|) == 0;
    forall i | 0 <= i < |s| ensures s[i] == t[i] { assert At(s, i) == At(t, i); }
  }

  /** Two different strings differ within the slices both have, counting one more of zeros. */
  lemma {:induction false} FindDiff(s: Str, t: Str, from: nat) returns (p: nat)
    requires NoNul(s) && NoNul(t) && s != t && from <= |s| && from <= |t|
    requires forall q: nat :: q < from ==> At(s, q) == At(t, q)
    ensures FirstDiff(s, t, p) && p <= |s| && p <= |t|
    decreases |s| - from
  {
    if At(s, from) != At(t, from) {
      p := from;
    } else {
      if from == |s| { SameString(s, t); assert false; }
      p := FindDiff(s, t, from + 1);
    }
  }

  /**
   * Slicing is injective and preserves order: slices compare like the strings, and the first that differs is in
   * range.
   */
  lemma SlicesOrder(s: Str, t: Str) returns (i: nat)
    requires NoNul(s) && NoNul(t) && s != t
    ensures SLICE * i <= |s| && SLICE * i <= |t| && i <= Slices(s) && i <= Slices(t)
      && (forall j: nat :: j < i ==> Word(s, j) == Word(t, j))
    ensures Word(s, i) != Word(t, i) && (Word(s, i) < Word(t, i) <==> Less(s, t))
      && (Word(s, i) > Word(t, i) <==> Less(t, s))
  {
    var p := FindDiff(s, t, 0);
    FirstWord(s, t, p);
    i := p / SLICE;
    OnlyDiff(s, t, p);
  }

  lemma OnlyDiff(s: Str, t: Str, p: nat)
    requires FirstDiff(s, t, p)
    ensures FirstDiff(t, s, p) && (Less(s, t) <==> At(s, p) < At(t, p)) && (Less(t, s) <==> At(t, p) < At(s, p))
  {
    forall q: nat | FirstDiff(s, t, q) || FirstDiff(t, s, q) ensures q == p { }
  }

  /** A slice without zeros is followed by another, though it may be the one of zeros. */
  predicate FullWord(w: nat) { w % 256 != 0 }

  lemma {:induction false} FullMeans(s: Str, i: nat)
    requires NoNul(s)
    ensures FullWord(Word(s, i)) <==> SLICE * (i + 1) <= |s|
  {
    var a := Slice(s, i);
    assert Word(s, i) == Value(a[..7]) * 256 + a[7];
  }

  // ---- make_leaf and keycmp ----

  method MakeLeaf(s: Str) returns (fkey: seq<nat>)
    ensures |fkey| == Slices(s) + 1 && forall i :: 0 <= i < |fkey| ==> fkey[i] == Word(s, i)
  {
    var len := if |s| % SLICE == 0 then |s| else (|s| / SLICE + 1) * SLICE;
    fkey := [];
    var i := 0;
    while i < len / SLICE
      invariant |fkey| == i <= len / SLICE && forall j :: 0 <= j < i ==> fkey[j] == Word(s, j)
    {
      fkey := fkey + [Word(s, i)];
      i := i + 1;
    }
    // the word after the last is left zero
    ZeroWord(s, i);
    fkey := fkey + [0];
  }

  lemma ZeroWord(s: Str, i: nat)
    requires SLICE * i >= |s|
    ensures Word(s, i) == 0
  {
    var z := Slice(s, i);
    ZeroValue(z);
  }

  lemma {:induction false} ZeroValue(z: seq<Byte>)
    requires forall i :: 0 <= i < |z| ==> z[i] == 0
    ensures Value(z) == 0
  {
    if z != [] { ZeroValue(z[..|z| - 1]); }
  }

  /** keycmp over the slices of a. */
  method Keycmp(a: Str, b: Str) returns (r: int)
    requires NoNul(a) && NoNul(b)
    ensures r < 0 ==> Less(a, b)
    ensures r > 0 ==> Less(b, a)
    ensures r == 0 <==> forall i: nat :: i < Slices(a) ==> Word(a, i) == Word(b, i)
  {
    var i: nat := 0;
    while i < Slices(a)
      invariant i <= Slices(a) && forall j: nat :: j < i ==> Word(a, j) == Word(b, j)
    {
      if Word(a, i) != Word(b, i) {
        ghost var l := SlicesOrder(a, b);
        assert l == i;
        return if Word(a, i) < Word(b, i) then -1 else 1;
      }
      i := i + 1;
    }
    return 0;
  }
}
