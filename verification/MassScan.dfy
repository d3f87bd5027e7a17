/** What a scan along the leaves collects. */
module MassScan {
  import opened Common
  import opened MassNode
  import opened MassTree
  import opened MassRows
  import opened MassStores

  /** No leaf still lists what its sibling has taken over. */
  ghost predicate AllClean(ns: seq<Node>) { forall j: nat :: CleanAt(ns, j) }

  /** The entries of the leaves from a up to b, in order. */
  function Flat(ns: seq<Node>, a: nat, b: nat): seq<Slot>
    requires a <= b <= |ns|
    decreases b - a
  {
    if a == b then [] else Flat(ns, a, b - 1) + Listed(ns[b - 1])
  }

  /** The entries with keys from min on. */
  function From(s: seq<Slot>, min: nat): seq<Slot> {
    if s == [] then [] else From(s[..|s| - 1], min) + if s[|s| - 1].key >= min then [s[|s| - 1]] else []
  }

  lemma {:induction false} FromHas(s: seq<Slot>, min: nat, e: Slot)
    ensures e in From(s, min) <==> e in s && e.key >= min
  {
    if s != [] {
      FromHas(s[..|s| - 1], min, e);
      assert s == s[..|s| - 1] + [s[|s| - 1]];
    }
  }

  lemma {:induction false} FromConcat(s: seq<Slot>, t: seq<Slot>, min: nat)
    ensures From(s + t, min) == From(s, min) + From(t, min)
    decreases |t|
  {
    if t == [] {
      assert s + t == s;
    } else {
      var u, e := t[..|t| - 1], t[|t| - 1];
      assert (s + t)[..|s + t| - 1] == s + u && (s + t)[|s + t| - 1] == e;
      FromConcat(s, u, min);
      var last := if e.key >= min then [e] else [];
      assert From(s + t, min) == From(s + u, min) + last && From(t, min) == From(u, min) + last;
    }
  }

  lemma {:induction false} FlatExtends(ns: seq<Node>, a: nat, b: nat, c: nat)
    requires a <= b <= c <= |ns|
    ensures Flat(ns, a, c) == Flat(ns, a, b) + Flat(ns, b, c)
    decreases c - b
  {
    if b < c { FlatExtends(ns, a, b, c - 1); }
  }

  /** Each leaf's keys lie between its fences, so the entries ascend across leaves. */
  lemma {:induction false} FlatAscends(ns: seq<Node>, a: nat, b: nat)
    requires RowOk(ns, 0) && AllClean(ns) && a <= b <= |ns|
    ensures Ascending(Flat(ns, a, b))
    ensures forall e :: e in Flat(ns, a, b) ==> a < |ns| && ns[a].low <= e.key && (b < |ns| ==> e.key < ns[b].low)
    decreases b - a
  {
    hide RowOk, AllClean, PairOk, NodeAt, CleanAt, Listed;
    if a < b {
      FlatAscends(ns, a, b - 1);
      LeafBetween(ns, b - 1);
      if a < b - 1 { FencesAscend(ns, 0, a, b - 1); }
      if b < |ns| { FencesAscend(ns, 0, b - 1, b); }
      var s, t := Flat(ns, a, b - 1), Listed(ns[b - 1]);
      forall e: Slot | e in s + t ensures ns[a].low <= e.key && (b < |ns| ==> e.key < ns[b].low) { if e in t { } }
      AscendingConcat(s, t, ns[b - 1].low);
    }
  }

  lemma AscendingConcat(s: seq<Slot>, t: seq<Slot>, x: nat)
    requires Ascending(s) && Ascending(t) && (forall e :: e in s ==> e.key < x) && (forall e :: e in t ==> e.key >= x)
    ensures Ascending(s + t)
  {
    forall i, j | 0 <= i < j < |s + t| ensures (s + t)[i].key < (s + t)[j].key {
      if i < |s| <= j { assert s[i] in s && t[j - |s|] in t; }
    }
  }

  lemma LeafBetween(ns: seq<Node>, j: nat)
    requires RowOk(ns, 0) && AllClean(ns) && j < |ns|
    ensures Ascending(Listed(ns[j]))
    ensures forall e :: e in Listed(ns[j]) ==> ns[j].low <= e.key && (j + 1 < |ns| ==> e.key < ns[j + 1].low)
  {
    NodeAtLevel(ns, 0, j);
    assert CleanAt(ns, j + 1);
    hide RowOk, AllClean, PairOk;
    forall e | e in Listed(ns[j]) ensures ns[j].low <= e.key && (j + 1 < |ns| ==> e.key < ns[j + 1].low) {
      var i :| 0 <= i < |Listed(ns[j])| && Listed(ns[j])[i] == e;
    }
  }

  /** The leaves hold exactly the map. */
  lemma FlatIsMap(ns: seq<Node>, e: Slot)
    requires RowOk(ns, 0) && AllClean(ns)
    ensures e in Flat(ns, 0, |ns|) <==> Lookup(ns, e.key) == Some(e.value)
  {
    hide RowOk, AllClean, Flat, Cover, Rank, Listed, FindIn;
    RowStarts(ns, 0);
    var c := Cover(ns, e.key, 0);
    LeafBetween(ns, c);
    ListedIffFound(Listed(ns[c]), e);
    if e in Flat(ns, 0, |ns|) {
      var j := LeafOf(ns, 0, |ns|, e);
      LeafBetween(ns, j);
      CoverIs(ns, 0, e.key, 0, j);
    }
    if e in Listed(ns[c]) { InFlat(ns, 0, |ns|, c, e); }
  }

  lemma ListedIffFound(s: seq<Slot>, e: Slot)
    requires Ascending(s)
    ensures e in s <==> FindIn(s, e.key) == Some(e.value)
  {
    if e in s {
      var i :| 0 <= i < |s| && s[i] == e;
      FindIs(s, e.key, i);
    }
  }

  lemma {:induction false} LeafOf(ns: seq<Node>, a: nat, b: nat, e: Slot) returns (j: nat)
    requires a <= b <= |ns| && e in Flat(ns, a, b)
    ensures a <= j < b && e in Listed(ns[j])
    decreases b - a
  {
    if e in Listed(ns[b - 1]) { j := b - 1; } else { j := LeafOf(ns, a, b - 1, e); }
  }

  lemma {:induction false} InFlat(ns: seq<Node>, a: nat, b: nat, j: nat, e: Slot)
    requires a <= j < b <= |ns| && e in Listed(ns[j])
    ensures e in Flat(ns, a, b)
    decreases b - a
  {
    if j < b - 1 { InFlat(ns, a, b - 1, j, e); }
  }

  /** out is what a scan for num keys from min on must return, given the map m. */
  ghost predicate IsScan(out: seq<Slot>, m: map<nat, nat>, min: nat, num: nat) {
    && |out| <= num && Ascending(out)
    && (forall e :: e in out ==> e.key >= min && e.key in m && m[e.key] == e.value)
    && forall k: nat :: k in m && k >= min ==>
      Slot(k, m[k]) in out || (|out| == num && forall e :: e in out ==> e.key < k)
  }

  /** buf holds the values of such a result. */
  ghost predicate ScanGives(buf: seq<nat>, m: map<nat, nat>, min: nat, num: nat) {
    exists out: seq<Slot> :: IsScan(out, m, min, num) && |out| == |buf| && forall i :: 0 <= i < |buf| ==>
      buf[i] == out[i].value
  }

  /** There is only one such result. */
  lemma ScanUnique(out: seq<Slot>, out': seq<Slot>, m: map<nat, nat>, min: nat, num: nat)
    requires IsScan(out, m, min, num) && IsScan(out', m, min, num)
    ensures out == out'
  {
    ScanWithin(out, out', m, min, num, |out|);
    ScanWithin(out', out, m, min, num, |out'|);
  }

  /** Entry by entry, one result agrees with the other. */
  lemma {:induction false} ScanWithin(out: seq<Slot>, out': seq<Slot>, m: map<nat, nat>, min: nat, num: nat, n: nat)
    requires IsScan(out, m, min, num) && IsScan(out', m, min, num) && n <= |out|
    ensures n <= |out'| && forall i :: 0 <= i < n ==> out[i] == out'[i]
    decreases n
  {
    if n > 0 {
      ScanWithin(out, out', m, min, num, n - 1);
      ScanNth(out, out', m, min, num, n - 1);
    }
  }

  lemma ScanNth(out: seq<Slot>, out': seq<Slot>, m: map<nat, nat>, min: nat, num: nat, n: nat)
    requires IsScan(out, m, min, num) && IsScan(out', m, min, num) && n < |out| && n <= |out'|
    requires forall i :: 0 <= i < n ==> out[i] == out'[i]
    ensures n < |out'| && out[n] == out'[n]
  {
    var e := out[n];
    assert e in out;
    if e in out' { var j :| 0 <= j < |out'| && out'[j] == e; }
    assert n < |out'| && out'[n] in out';
    NoSmaller(out, out', m, min, num, n);
    NoSmaller(out', out, m, min, num, n);
  }

  lemma NoSmaller(out: seq<Slot>, out': seq<Slot>, m: map<nat, nat>, min: nat, num: nat, n: nat)
    requires IsScan(out, m, min, num) && IsScan(out', m, min, num) && n < |out| && n < |out'|
    requires forall i :: 0 <= i < n ==> out[i] == out'[i]
    ensures out[n].key <= out'[n].key
  {
    var e := out'[n];
    assert e in out' && out[n] in out;
    if e in out { var i :| 0 <= i < |out| && out[i] == e; }
  }

  /** A prefix of all entries from min on, cut only when num are there, is such a result. */
  lemma ScanRight(ns: seq<Node>, m: map<nat, nat>, min: nat, num: nat, j: nat, out: seq<Slot>)
    requires RowOk(ns, 0) && AllClean(ns) && j < |ns| && ns[j].low <= min
    requires forall k: nat :: Lookup(ns, k) == MapAt(m, k)
    requires var all := From(Flat(ns, j, |ns|), min); out <= all && |out| <= num && (out == all || |out| == num)
    ensures IsScan(out, m, min, num)
  {
    hide RowOk, AllClean, From, Flat, Lookup, NodeAt;
    var all := From(Flat(ns, j, |ns|), min);
    FlatAscends(ns, j, |ns|);
    FromAscends(Flat(ns, j, |ns|), min);
    forall e ensures e in all <==> e.key >= min && e.key in m && m[e.key] == e.value { FromMap(ns, m, min, j, e); }
    PrefixScan(all, out, m, min, num);
  }

  lemma PrefixScan(all: seq<Slot>, out: seq<Slot>, m: map<nat, nat>, min: nat, num: nat)
    requires Ascending(all) && out <= all && |out| <= num && (out == all || |out| == num)
    requires forall e :: e in all <==> e.key >= min && e.key in m && m[e.key] == e.value
    ensures IsScan(out, m, min, num)
  {
    assert out == all[..|out|];
    forall e: Slot | e in out ensures e in all { var i :| 0 <= i < |out| && out[i] == e; assert all[i] == e; }
    forall k: nat | k in m && k >= min
      ensures Slot(k, m[k]) in out || (|out| == num && forall e :: e in out ==> e.key < k)
    {
      assert Slot(k, m[k]) in all;
      PrefixSplits(all, |out|, Slot(k, m[k]));
    }
  }

  lemma PrefixSplits(all: seq<Slot>, n: nat, e: Slot)
    requires Ascending(all) && n <= |all| && e in all
    ensures e in all[..n] || (n < |all| && forall f :: f in all[..n] ==> f.key < e.key)
  {
    var i :| 0 <= i < |all| && all[i] == e;
    if i < n { assert all[..n][i] == e; }
  }

  lemma FromMap(ns: seq<Node>, m: map<nat, nat>, min: nat, j: nat, e: Slot)
    requires RowOk(ns, 0) && AllClean(ns) && j < |ns| && ns[j].low <= min
    requires forall k: nat :: Lookup(ns, k) == MapAt(m, k)
    ensures e in From(Flat(ns, j, |ns|), min) <==> e.key >= min && e.key in m && m[e.key] == e.value
  {
    hide RowOk, AllClean, Flat, From, Lookup;
    FlatIsMap(ns, e);
    FlatExtends(ns, 0, j, |ns|);
    FlatAscends(ns, 0, j);
    FromHas(Flat(ns, j, |ns|), min, e);
    assert Lookup(ns, e.key) == MapAt(m, e.key);
  }

  lemma {:induction false} FromAscends(s: seq<Slot>, min: nat)
    requires Ascending(s)
    ensures Ascending(From(s, min))
  {
    if s != [] {
      var u := s[..|s| - 1];
      FromAscends(u, min);
      forall e | e in From(u, min) ensures e.key < s[|s| - 1].key {
        FromHas(u, min, e);
        var i :| 0 <= i < |u| && u[i] == e;
      }
      var r := From(u, min);
      forall i | 0 <= i < |r| ensures r[i].key < s[|s| - 1].key { assert r[i] in r; }
    }
  }

  /** What has been collected inside leaf j is a prefix of everything there is to collect. */
  lemma ScanPrefix(ns: seq<Node>, a: nat, j: nat, i: nat, min: nat)
    requires a <= j < |ns| && i <= |Listed(ns[j])|
    ensures From(Flat(ns, a, j) + Listed(ns[j])[..i], min) <= From(Flat(ns, a, |ns|), min)
    ensures i == |Listed(ns[j])| ==> From(Flat(ns, a, j) + Listed(ns[j])[..i], min) == From(Flat(ns, a, j + 1), min)
  {
    hide From, Listed;
    var f, l, rest := Flat(ns, a, j), Listed(ns[j]), Flat(ns, j + 1, |ns|);
    FlatExtends(ns, a, j + 1, |ns|);
    assert Flat(ns, a, j + 1) == f + l;
    hide Flat;
    Regroup(f, l, i, rest);
    FromConcat(f + l[..i], l[i..] + rest, min);
    if i == |l| { assert l[..i] == l; }
  }

  lemma Regroup(f: seq<Slot>, l: seq<Slot>, i: nat, rest: seq<Slot>)
    requires i <= |l|
    ensures (f + l[..i]) + (l[i..] + rest) == (f + l) + rest
  {
  }

  lemma ScanNext(s: seq<Slot>, l: seq<Slot>, i: nat, min: nat)
    requires i < |l|
    ensures From(s + l[..i + 1], min) == From(s + l[..i], min) + if l[i].key >= min then [l[i]] else []
  {
    var t := s + l[..i + 1];
    assert t[..|t| - 1] == s + l[..i] && t[|t| - 1] == l[i];
  }

  // ---- scanning in the middle of a split ----

  lemma MiddleAscends(a: seq<Slot>, b: seq<Slot>, c: seq<Slot>)
    requires Ascending((a + b) + c)
    ensures Ascending(b)
  {
    var s := (a + b) + c;
    forall i, j | 0 <= i < j < |b| ensures b[i].key < b[j].key { assert b[i] == s[|a| + i] && b[j] == s[|a| + j]; }
  }

  lemma NotTwice(s: seq<Slot>, t: seq<Slot>, e: Slot)
    requires e in s && e in t
    ensures !Ascending(s + t)
  {
    var i :| 0 <= i < |s| && s[i] == e;
    var j :| 0 <= j < |t| && t[j] == e;
    assert (s + t)[i] == e && (s + t)[|s| + j] == e;
  }

  /** A leaf that was never cut lists an entry of its sibling. */
  lemma TornShares(ns: seq<Node>, j: nat) returns (e: Slot)
    requires RowOk(ns, 0) && j + 1 < |ns| && !CleanAt(ns, j + 1)
    ensures e in Listed(ns[j]) && e in Listed(ns[j + 1])
  {
    DropFacts(ns, 0, j);
    LeafContent(ns[j + 1]);
    e := Listed(ns[j + 1])[0];
    hide RowOk, PairOk, CleanAt, Under;
    TailAt(Listed(ns[j]), ns[j + 1].low, 0);
  }

  /** A scan meets every key once, in order, if and only if no leaf split is half done. */
  lemma OrderedIffClean(ns: seq<Node>)
    requires RowOk(ns, 0)
    ensures Ascending(Flat(ns, 0, |ns|)) <==> AllClean(ns)
  {
    if AllClean(ns) { FlatAscends(ns, 0, |ns|); } else { TornRepeats(ns); }
  }

  lemma TornRepeats(ns: seq<Node>)
    requires RowOk(ns, 0) && !AllClean(ns)
    ensures !Ascending(Flat(ns, 0, |ns|))
  {
    hide RowOk, Ascending, CleanAt, Flat;
    var j := TornPlace(ns);
    var e := TornShares(ns, j);
    NotTwice(Listed(ns[j]), Listed(ns[j + 1]), e);
    SplitFlat(ns, j);
    if Ascending(Flat(ns, 0, |ns|)) {
      MiddleAscends(Flat(ns, 0, j), Listed(ns[j]) + Listed(ns[j + 1]), Flat(ns, j + 2, |ns|));
    }
  }

  lemma SplitFlat(ns: seq<Node>, j: nat)
    requires j + 1 < |ns|
    ensures Flat(ns, 0, |ns|) == (Flat(ns, 0, j) + (Listed(ns[j]) + Listed(ns[j + 1]))) + Flat(ns, j + 2, |ns|)
  {
    FlatExtends(ns, 0, j, |ns|);
    FlatExtends(ns, j, j + 2, |ns|);
    TwoLeaves(ns, j);
  }

  lemma TornPlace(ns: seq<Node>) returns (j: nat)
    requires !AllClean(ns)
    ensures !CleanAt(ns, j + 1) && j + 1 < |ns|
  {
    hide Under;
    var i: nat :| !CleanAt(ns, i);
    j := i - 1;
  }

  lemma TwoLeaves(ns: seq<Node>, j: nat)
    requires j + 1 < |ns|
    ensures Flat(ns, j, j + 2) == Listed(ns[j]) + Listed(ns[j + 1])
  {
    hide Listed;
    assert Flat(ns, j, j + 1) == Flat(ns, j, j) + Listed(ns[j]);
  }
}
