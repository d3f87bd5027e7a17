/** Compressed prefixes: comparing them with a key, cutting and joining them. */
module ArtPrefix {
  import opened Common
  import opened ArtNode
  import opened ArtTree

  function Min(a: nat, b: nat): nat { if a <= b then a else b }

  /** memmove and memcpy on a prefix: n bytes of src to position `at` of dst. */
  function CopyIn(dst: seq<Byte>, at: nat, src: seq<Byte>, n: nat): (r: seq<Byte>)
    requires n <= |src| && at + n <= |dst|
    ensures |r| == |dst|
  {
    dst[..at] + src[..n] + dst[at + n..]
  }

  /** setPrefix. */
  function SetPrefix(bytes: seq<Byte>, length: nat): Prefix
    requires |bytes| >= Min(length, MAX_STORED)
  {
    Prefix(length, CopyIn([0, 0, 0, 0], 0, bytes, Min(length, MAX_STORED)))
  }

  lemma SetPrefixOk(bytes: seq<Byte>, w: Key)
    requires |bytes| >= Min(|w|, MAX_STORED) && forall i :: 0 <= i < |w| && i < MAX_STORED ==> bytes[i] == w[i]
    ensures PrefixOk(SetPrefix(bytes, |w|), w)
  {
  }

  /** addPrefixBefore: p becomes nodeP, then key, then p. */
  function AddPrefixBefore(p: Prefix, nodeP: Prefix, key: Byte): Prefix
    requires |p.bytes| == |nodeP.bytes| == MAX_STORED
  {
    var copyCount := Min(MAX_STORED, nodeP.count + 1);
    var shifted := CopyIn(p.bytes, copyCount, p.bytes, Min(p.count, MAX_STORED - copyCount));
    var copied := CopyIn(shifted, 0, nodeP.bytes, Min(copyCount, nodeP.count));
    Prefix(p.count + nodeP.count + 1, if nodeP.count < MAX_STORED then copied[copyCount - 1 := key] else copied)
  }

  /** Joining two prefixes around a byte, as far as bytes are stored. */
  lemma JoinOk(p: Prefix, w: Key, nodeP: Prefix, wn: Key, key: Byte)
    requires PrefixOk(p, w) && PrefixOk(nodeP, wn)
    ensures PrefixOk(AddPrefixBefore(p, nodeP, key), wn + [key] + w)
  {
    var r, all := AddPrefixBefore(p, nodeP, key), wn + [key] + w;
    forall i | 0 <= i < |all| && i < MAX_STORED ensures r.bytes[i] == all[i] {
      if i < |wn| {
        assert all[i] == wn[i] && r.bytes[i] == nodeP.bytes[i];
      } else if i == |wn| {
        assert all[i] == key && r.bytes[i] == key;
      } else {
        assert all[i] == w[i - |wn| - 1] && r.bytes[i] == p.bytes[i - |wn| - 1];
      }
    }
  }

  /** A prefix of a prefix needs no new bytes. */
  lemma CutOk(p: Prefix, w: Key, n: nat)
    requires PrefixOk(p, w) && n <= |w|
    ensures PrefixOk(p.(count := n), w[..n])
  {
  }

  /**
   * A prefix that is right for its own length: it is the end of the path.  Between the two stores of a
   * split or a merge a node's prefix is still the one for its old parent, longer or shorter than it
   * should be; the level is always right.
   */
  predicate Loose(p: Prefix, w: Key) { p.count <= |w| && PrefixOk(p, w[|w| - p.count..]) }

  function Max(a: nat, b: nat): nat { if a <= b then b else a }

  /** Where a lookup that has consumed `level` bytes goes on after a node of level L with a prefix of n bytes. */
  function Landing(level: nat, L: nat, n: nat): nat {
    if n + level < L then L else if n > MAX_STORED then Max(level + n - MAX_STORED, L) else Max(level, L)
  }

  /** Whether it has skipped bytes unseen. */
  predicate Unseen(level: nat, L: nat, n: nat) { n + level < L || n > MAX_STORED }

  /** The bytes it has seen: those the prefix stores, from `level` on. */
  predicate Agrees(p: Prefix, w: Key, k: Key, level: nat) {
    p.count + level >= |w| ==>
      forall j :: level <= j < |w| - p.count + Min(p.count, MAX_STORED) && j < |w| && j < |k| ==> w[j] == k[j]
  }

  lemma LooseAt(p: Prefix, w: Key, j: nat)
    requires Loose(p, w) && |w| - p.count <= j < |w| - p.count + Min(p.count, MAX_STORED)
    ensures p.bytes[j - (|w| - p.count)] == w[j]
  {
    assert w[|w| - p.count..][j - (|w| - p.count)] == w[j];
  }

  datatype Outcome = NoMatch | OptimisticMatch | Match

  /** checkPrefix, on a node whose prefix may be in the middle of a split or a merge. */
  method CheckPrefix(n: Inner, k: Key, level: nat, ghost w: Key) returns (r: Outcome, level': nat)
    requires n.level == |w| && Loose(n.prefix, w)
    ensures r == NoMatch <==> |k| <= |w| || !Agrees(n.prefix, w, k, level)
    ensures r != NoMatch ==>
      level' == Landing(level, |w|, n.prefix.count) && (r == OptimisticMatch <==> Unseen(level, |w|, n.prefix.count))
  {
    level' := level;
    if |k| <= n.level { return NoMatch, level'; }
    var p := n.prefix;
    if p.count + level < n.level { return OptimisticMatch, n.level; }
    if p.count > 0 {
      var i, first := level + p.count - n.level, level + p.count - n.level;
      while i < Min(p.count, MAX_STORED)
        invariant first <= i && (i <= Min(p.count, MAX_STORED) || i == first) && level' == level + i - first
        invariant forall j :: level <= j < level' ==> w[j] == k[j]
      {
        LooseAt(p, w, level');
        if p.bytes[i] != k[level'] { return NoMatch, level'; }
        i, level' := i + 1, level' + 1;
      }
      if p.count > MAX_STORED { return OptimisticMatch, level' + p.count - MAX_STORED; }
    }
    return Match, level';
  }
}
