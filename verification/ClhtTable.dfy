/**
 * P-CLHT's bucket table: chains of three-entry buckets with holes, and get, put and remove on them.
 * A key of 0 marks an empty entry.
 */
module ClhtTable {
  import opened Common
  import opened ClhtHash

  datatype Slot = Slot(key: nat, val: nat)

  const HOLE := Slot(0, 0)

  const EMPTY_BUCKET := [HOLE, HOLE, HOLE]

  /** The value of key k in a chain. */
  function Lookup(c: seq<Slot>, k: nat): Option<nat> {
    if c == [] then None else if c[0].key == k then Some(c[0].val) else Lookup(c[1..], k)
  }

  /** No key occurs twice in a chain. */
  predicate Distinct(c: seq<Slot>) { forall i, j :: 0 <= i < j < |c| && c[i].key == c[j].key ==> c[i].key == 0 }

  lemma {:induction false} LookupAt(c: seq<Slot>, k: nat, j: nat)
    requires Distinct(c) && j < |c| && c[j].key == k && k != 0
    ensures Lookup(c, k) == Some(c[j].val)
  {
    if j > 0 { LookupAt(c[1..], k, j - 1); }
  }

  lemma {:induction false} LookupNone(c: seq<Slot>, k: nat)
    ensures Lookup(c, k).None? <==> forall j :: 0 <= j < |c| ==> c[j].key != k
  {
    if c != [] {
      LookupNone(c[1..], k);
      assert forall j :: 1 <= j < |c| ==> c[j] == c[1..][j - 1];
    }
  }

  /** Filling a hole with a key the chain does not have binds it and nothing else. */
  lemma {:induction false} LookupFilled(c: seq<Slot>, j: nat, k: nat, v: nat, q: nat)
    requires Distinct(c) && j < |c| && c[j].key == 0 && k != 0 && q != 0 && Lookup(c, k).None?
    ensures Distinct(c[j := Slot(k, v)]) && Lookup(c[j := Slot(k, v)], q) == if q == k then Some(v) else Lookup(c, q)
  {
    var c' := c[j := Slot(k, v)];
    LookupNone(c, k);
    assert Distinct(c');
    if q == k { LookupAt(c', k, j); } else { LookupElsewhere(c, c', j, q); }
  }

  /** A chain that differs only at j, where neither side has key q. */
  lemma {:induction false} LookupElsewhere(c: seq<Slot>, c': seq<Slot>, j: nat, q: nat)
    requires |c'| == |c| && j < |c| && c[j].key != q && c'[j].key != q
    requires forall i :: 0 <= i < |c| && i != j ==> c'[i] == c[i]
    ensures Lookup(c', q) == Lookup(c, q)
  {
    if j == 0 { assert c'[1..] == c[1..]; } else { LookupElsewhere(c[1..], c'[1..], j - 1, q); }
  }

  lemma {:induction false} LookupAppend(c: seq<Slot>, d: seq<Slot>, q: nat)
    ensures Lookup(c + d, q) == if Lookup(c, q).Some? then Lookup(c, q) else Lookup(d, q)
  {
    if c == [] { assert c + d == d; } else { assert (c + d)[1..] == c[1..] + d; LookupAppend(c[1..], d, q); }
  }

  lemma {:induction false} LookupErased(c: seq<Slot>, j: nat, q: nat)
    requires Distinct(c) && j < |c| && c[j].key != 0 && q != 0
    ensures
      var c' := c[j := Slot(0, c[j].val)];
      Distinct(c') && Lookup(c', q) == if q == c[j].key then None else Lookup(c, q)
  {
    var c' := c[j := Slot(0, c[j].val)];
    if q == c[j].key { LookupNone(c', q); } else { LookupElsewhere(c, c', j, q); }
  }

  /** The bucket clht_put links to a chain without holes. */
  function NewBucket(k: nat, v: nat): seq<Slot> { [Slot(k, v), HOLE, HOLE] }

  lemma LookupNewBucket(c: seq<Slot>, k: nat, v: nat, q: nat)
    requires Distinct(c) && k != 0 && q != 0 && Lookup(c, k).None?
    ensures Distinct(c + NewBucket(k, v)) && Lookup(c + NewBucket(k, v), q) == if q == k then Some(v) else Lookup(c, q)
  {
    LookupNone(c, k);
    var d := NewBucket(k, v);
    LookupNone(d, q);
    assert d[0] == Slot(k, v);
    assert q == k ==> Lookup(d, q) == Some(v);
    LookupAppend(c, d, q);
  }

  // ---- the table ----

  datatype Table = Table(n: nat, chain: map<nat, seq<Slot>>)

  predicate ChainOk(n: nat, b: nat, c: seq<Slot>) {
    Distinct(c) && forall j :: 0 <= j < |c| && c[j].key != 0 ==> Bin(n, c[j].key) == b
  }

  ghost predicate TableOk(t: Table) {
    t.n != 0 && forall b: nat :: b < t.n ==> b in t.chain && ChainOk(t.n, b, t.chain[b])
  }

  ghost function At(t: Table, k: nat): Option<nat>
    requires TableOk(t)
  {
    BinInside(t.n, k);
    Lookup(t.chain[Bin(t.n, k)], k)
  }

  /** The table holds exactly m. */
  ghost predicate Means(t: Table, m: map<nat, nat>) {
    TableOk(t) && 0 !in m && forall k: nat :: k != 0 ==> At(t, k) == if k in m then Some(m[k]) else None
  }

  function SetChain(t: Table, b: nat, c: seq<Slot>): Table { t.(chain := t.chain[b := c]) }

  /** Changing one chain, on the map. */
  lemma ChainStep(t: Table, m: map<nat, nat>, b: nat, c: seq<Slot>, m': map<nat, nat>)
    requires Means(t, m) && b < t.n && ChainOk(t.n, b, c) && 0 !in m'
    requires forall k: nat :: k != 0 && Bin(t.n, k) == b ==> Lookup(c, k) == if k in m' then Some(m'[k]) else None
    requires forall k: nat :: k != 0 && Bin(t.n, k) != b ==> (k in m' <==> k in m) && (k in m ==> m'[k] == m[k])
    ensures Means(SetChain(t, b, c), m')
  {
    hide Bin, Lookup, Distinct;
    var t' := SetChain(t, b, c);
    forall k: nat | k != 0 ensures At(t', k) == if k in m' then Some(m'[k]) else None {
      BinInside(t.n, k);
      assert At(t, k) == if k in m then Some(m[k]) else None;
    }
  }

  /** What the bucket of a key says of it. */
  lemma BucketOf(t: Table, m: map<nat, nat>, k: nat)
    requires Means(t, m) && k != 0
    ensures var b := Bin(t.n, k);
      b < t.n && b in t.chain && ChainOk(t.n, b, t.chain[b])
        && Lookup(t.chain[b], k) == if k in m then Some(m[k]) else None
  {
    hide Lookup, Bin, ChainOk;
    BinInside(t.n, k);
    assert At(t, k) == if k in m then Some(m[k]) else None;
  }

  // ---- what one persisted store can do to a table ----

  /** The key or the value of entry j of chain b. */
  predicate EntryStore(t: Table, t': Table, b: nat, j: nat) {
    && b in t.chain && b in t'.chain && j < |t.chain[b]| && j < |t'.chain[b]|
    && t' == t.(chain := t.chain[b := t.chain[b][j := t'.chain[b][j]]])
    && (t'.chain[b][j].key == t.chain[b][j].key || t'.chain[b][j].val == t.chain[b][j].val)
  }

  /** A bucket that has been filled is linked to the end of chain b. */
  predicate BucketStore(t: Table, t': Table, b: nat) {
    && b in t.chain && b in t'.chain && |t'.chain[b]| == |t.chain[b]| + 3 && t.chain[b] <= t'.chain[b]
    && t' == t.(chain := t.chain[b := t'.chain[b]])
  }

  ghost predicate OneStore(t: Table, t': Table) {
    (exists b: nat, j: nat :: EntryStore(t, t', b, j)) || exists b: nat :: BucketStore(t, t', b)
  }

  /** The log ends with the present table, and from each state to the next it takes one store. */
  ghost predicate Trace(log: seq<Table>, t: Table) {
    log != [] && log[|log| - 1] == t && forall i: nat :: i + 1 < |log| ==> OneStore(log[i], log[i + 1])
  }

  lemma TraceOn(log: seq<Table>, t: Table, t': Table)
    requires Trace(log, t) && OneStore(t, t')
    ensures Trace(log + [t'], t')
  {
    hide OneStore;
    var on := log + [t'];
    forall i: nat | i + 1 < |on| ensures OneStore(on[i], on[i + 1]) {
      if i + 1 < |log| { assert OneStore(log[i], log[i + 1]); }
    }
  }

  function FirstHole(c: seq<Slot>): (i: nat)
    ensures i <= |c| && (i < |c| ==> c[i].key == 0)
  {
    if c == [] || c[0].key == 0 then 0 else 1 + FirstHole(c[1..])
  }

  /** clht_put_seq, once it has found its slot; a full chain gets another bucket. */
  function PutAt(c: seq<Slot>, i: nat, e: Slot): seq<Slot> {
    if i < |c| then c[i := e] else c + NewBucket(e.key, e.val)
  }

  function IndexOf(c: seq<Slot>, k: nat): (i: nat)
    ensures i <= |c| && (i < |c| ==> c[i].key == k)
  {
    if c == [] || c[0].key == k then 0 else 1 + IndexOf(c[1..], k)
  }

  lemma {:induction false} FirstHoleIs(c: seq<Slot>, i: nat)
    requires i <= |c| && (i < |c| ==> c[i].key == 0) && forall j :: 0 <= j < i ==> c[j].key != 0
    ensures FirstHole(c) == i
  {
    if i > 0 {
      assert c[0].key != 0;
      FirstHoleIs(c[1..], i - 1);
    }
  }

  lemma {:induction false} IndexOfIs(c: seq<Slot>, k: nat, i: nat)
    requires i < |c| && c[i].key == k && forall j :: 0 <= j < i ==> c[j].key != k
    ensures IndexOf(c, k) == i
  {
    if i > 0 {
      assert c[0].key != k;
      IndexOfIs(c[1..], k, i - 1);
    }
  }

  class Clht {
    var n: nat
    var chain: map<nat, seq<Slot>>
    ghost var log: seq<Table>

    ghost function Image(): Table
      reads this
    {
      Table(n, chain)
    }

    /** clht_hashtable_create, of at least one bucket. */
    constructor (num: nat)
      requires num > 0
      ensures n == num && Means(Image(), map[]) && log == [Image()] && Trace(log, Image())
    {
      var buckets: map<nat, seq<Slot>> := map[];
      for i := 0 to num
        invariant forall b: nat :: b < i ==> b in buckets && buckets[b] == EMPTY_BUCKET
      {
        buckets := buckets[i := EMPTY_BUCKET];
      }
      n, chain := num, buckets;
      new;
      log := [Image()];
      EmptyTable(Image());
    }

    /** clht_hashtable_create: no table without buckets. */
    static method Create(num: nat) returns (r: Option<Clht>)
      ensures r.None? <==> num == 0
      ensures r.Some? ==> fresh(r.value) && r.value.n == num
      ensures r.Some? ==> Means(r.value.Image(), map[]) && Trace(r.value.log, r.value.Image())
    {
      if num == 0 { return None; }
      var t := new Clht(num);
      return Some(t);
    }

    /** Since `was`, every persisted state but the last stands for m, and the last, the present one, for m'. */
    ghost predicate Committed(was: seq<Table>, m: map<nat, nat>, m': map<nat, nat>)
      reads this
    {
      && was <= log && |was| < |log| && log[|log| - 1] == Image() && Means(Image(), m')
      && forall i :: |was| <= i < |log| - 1 ==> Means(log[i], m)
    }

    /** The store of a value or of a key. */
    method StoreEntry(b: nat, j: nat, e: Slot, ghost m: map<nat, nat>)
      requires Trace(log, Image()) && b in chain && j < |chain[b]|
      requires (e.key == chain[b][j].key || e.val == chain[b][j].val)
        && Means(SetChain(Image(), b, chain[b][j := e]), m)
      modifies `chain, `log
      ensures Image() == SetChain(old(Image()), b, old(chain)[b][j := e]) && Means(Image(), m)
      ensures log == old(log) + [Image()] && Trace(log, Image())
    {
      hide Means, Trace;
      ghost var t := Image();
      chain := chain[b := chain[b][j := e]];
      log := log + [Image()];
      assert EntryStore(t, Image(), b, j);
      TraceOn(old(log), t, Image());
    }

    /** The store of the pointer to a new bucket. */
    method LinkBucket(b: nat, k: nat, v: nat, ghost m: map<nat, nat>)
      requires Trace(log, Image()) && b in chain && Means(SetChain(Image(), b, chain[b] + NewBucket(k, v)), m)
      modifies `chain, `log
      ensures Image() == SetChain(old(Image()), b, old(chain)[b] + NewBucket(k, v)) && Means(Image(), m)
      ensures log == old(log) + [Image()] && Trace(log, Image())
    {
      hide Means, Trace;
      ghost var t := Image();
      chain := chain[b := chain[b] + NewBucket(k, v)];
      log := log + [Image()];
      assert BucketStore(t, Image(), b);
      TraceOn(old(log), t, Image());
    }

    /** clht_get. */
    method Get(key: nat, ghost m: map<nat, nat>) returns (r: Option<nat>)
      requires Means(Image(), m) && key != 0
      ensures r == if key in m then Some(m[key]) else None
    {
      hide Bin, Lookup, Means, Distinct;
      BucketOf(Image(), m, key);
      var c := chain[Bin(n, key)];
      var j := 0;
      while j < |c|
        invariant j <= |c| && forall i :: 0 <= i < j ==> c[i].key != key
      {
        if c[j].key == key {
          LookupAt(c, key, j);
          return Some(c[j].val);
        }
        j := j + 1;
      }
      LookupNone(c, key);
      return None;
    }

    /** clht_put: binds a new key, or leaves an old one as it is. */
    method Put(key: nat, val: nat, ghost m: map<nat, nat>) returns (done: bool)
      requires Means(Image(), m) && Trace(log, Image()) && key != 0
      modifies `chain, `log
      ensures done <==> key !in m
      ensures n == old(n) && Trace(log, Image())
      ensures done ==> Committed(old(log), m, m[key := val])
      // the first hole of its chain is filled, and the chain gets another bucket only if it has none
      ensures done ==>
        && Bin(n, key) in old(chain)
        && var c := old(chain)[Bin(n, key)];
           chain == old(chain)[Bin(n, key) := PutAt(c, FirstHole(c), Slot(key, val))]
      ensures !done ==> Image() == old(Image()) && log == old(log)
    {
      hide Bin, Lookup, Means, Distinct, Trace;
      BucketOf(Image(), m, key);
      var b := Bin(n, key);
      var c := chain[b];
      var j: nat, empty: nat := 0, |c|;
      while j < |c|
        invariant j <= |c| && forall i :: 0 <= i < j ==> c[i].key != key
        invariant empty == |c| || (empty < j && c[empty].key == 0)
        invariant forall i :: 0 <= i < j && i < empty ==> c[i].key != 0
      {
        if c[j].key == key {
          LookupAt(c, key, j);
          return false;
        }
        if empty == |c| && c[j].key == 0 { empty := j; }
        j := j + 1;
      }
      LookupNone(c, key);
      FirstHoleIs(c, empty);
      if empty == |c| {
        AppendStep(Image(), m, b, key, val);
        LinkBucket(b, key, val, m[key := val]);
      } else {
        FillSteps(Image(), m, b, empty, key, val);
        StoreEntry(b, empty, Slot(0, val), m);
        assert SetChain(Image(), b, c[empty := Slot(key, val)]) ==
          SetChain(old(Image()), b, c[empty := Slot(key, val)]);
        assert chain[b][empty := Slot(key, val)] == c[empty := Slot(key, val)];
        StoreEntry(b, empty, Slot(key, val), m[key := val]);
      }
      return true;
    }

    /** clht_remove. */
    method Remove(key: nat, ghost m: map<nat, nat>) returns (r: Option<nat>)
      requires Means(Image(), m) && Trace(log, Image()) && key != 0
      modifies `chain, `log
      ensures r == if key in m then Some(m[key]) else None
      ensures n == old(n) && Trace(log, Image())
      ensures r.Some? ==> Committed(old(log), m, m - {key})
      ensures r.Some? ==>
        && Bin(n, key) in old(chain)
        && var c := old(chain)[Bin(n, key)]; var i := IndexOf(c, key);
           i < |c| && chain == old(chain)[Bin(n, key) := c[i := Slot(0, c[i].val)]]
      ensures r.None? ==> Image() == old(Image()) && log == old(log)
    {
      hide Bin, Lookup, Means, Distinct, Trace;
      BucketOf(Image(), m, key);
      var b := Bin(n, key);
      var c := chain[b];
      var j := 0;
      while j < |c|
        invariant j <= |c| && forall i :: 0 <= i < j ==> c[i].key != key
      {
        if c[j].key == key {
          LookupAt(c, key, j);
          EraseStep(Image(), m, b, j);
          IndexOfIs(c, key, j);
          StoreEntry(b, j, Slot(0, c[j].val), m - {key});
          return Some(c[j].val);
        }
        j := j + 1;
      }
      LookupNone(c, key);
      return None;
    }
  }

  lemma EmptyTable(t: Table)
    requires t.n > 0 && forall b: nat :: b < t.n ==> b in t.chain && t.chain[b] == EMPTY_BUCKET
    ensures Means(t, map[])
  {
    hide Bin;
    forall k: nat | k != 0 ensures At(t, k) == None {
      BinInside(t.n, k);
      LookupNone(EMPTY_BUCKET, k);
    }
  }

  /** Linking a bucket that is complete binds the key. */
  lemma AppendStep(t: Table, m: map<nat, nat>, b: nat, k: nat, v: nat)
    requires Means(t, m) && k != 0 && b == Bin(t.n, k) && b < t.n && k !in m
    ensures Means(SetChain(t, b, t.chain[b] + NewBucket(k, v)), m[k := v])
  {
    var c := t.chain[b];
    assert At(t, k) == None;
    forall q: nat | q != 0 && Bin(t.n, q) == b
      ensures Lookup(c + NewBucket(k, v), q) == if q in m[k := v] then Some(m[k := v][q]) else None
    {
      assert At(t, q) == if q in m then Some(m[q]) else None;
      LookupNewBucket(c, k, v, q);
    }
    LookupNewBucket(c, k, v, k);
    hide Lookup, Bin, Means, Distinct;
    ChainStep(t, m, b, c + NewBucket(k, v), m[k := v]);
  }

  /** Filling a hole: the value store changes nothing, the key store binds the key. */
  lemma FillSteps(t: Table, m: map<nat, nat>, b: nat, j: nat, k: nat, v: nat)
    requires Means(t, m) && k != 0 && b == Bin(t.n, k) && b < t.n && k !in m && j < |t.chain[b]|
      && t.chain[b][j].key == 0
    ensures Means(SetChain(t, b, t.chain[b][j := Slot(0, v)]), m)
    ensures Means(SetChain(t, b, t.chain[b][j := Slot(k, v)]), m[k := v])
  {
    var c := t.chain[b];
    assert At(t, k) == None;
    forall q: nat | q != 0 && Bin(t.n, q) == b
      ensures Lookup(c[j := Slot(0, v)], q) == (if q in m then Some(m[q]) else None)
        && Lookup(c[j := Slot(k, v)], q) == if q in m[k := v] then Some(m[k := v][q]) else None
    {
      assert At(t, q) == if q in m then Some(m[q]) else None;
      LookupElsewhere(c, c[j := Slot(0, v)], j, q);
      LookupFilled(c, j, k, v, q);
    }
    LookupFilled(c, j, k, v, k);
    hide Lookup, Bin, Means;
    ChainStep(t, m, b, c[j := Slot(0, v)], m);
    ChainStep(t, m, b, c[j := Slot(k, v)], m[k := v]);
  }

  lemma EraseStep(t: Table, m: map<nat, nat>, b: nat, j: nat)
    requires Means(t, m) && b < t.n && j < |t.chain[b]| && t.chain[b][j].key != 0 && Bin(t.n, t.chain[b][j].key) == b
    ensures Means(SetChain(t, b, t.chain[b][j := Slot(0, t.chain[b][j].val)]), m - {t.chain[b][j].key})
  {
    var c := t.chain[b];
    var k, c' := c[j].key, c[j := Slot(0, c[j].val)];
    forall q: nat | q != 0 && Bin(t.n, q) == b
      ensures Lookup(c', q) == if q in m - {k} then Some((m - {k})[q]) else None
    {
      assert At(t, q) == if q in m then Some(m[q]) else None;
      LookupErased(c, j, q);
    }
    LookupErased(c, j, k);
    hide Lookup, Bin, Means;
    ChainStep(t, m, b, c', m - {k});
  }
}
