/**
 * Masstree for string keys: a tree of layers, each a sorted map from 8-byte slices to either a whole
 * key with its value or the layer for the next slice.
 */
module MassLayers {
  import opened Common
  import opened MassStrings

  /** What a slot of a layer holds: nothing yet, a key with its value, or a layer. */
  datatype Entry = Unset | LV(key: Str, value: nat) | Sub(layer: nat)

  type Layer = map<nat, Entry>

  function Only(k: nat, e: Entry): Layer { map[k := e] }

  type Layers = map<nat, Layer>

  type Paths = map<nat, seq<nat>>

  /** The slices of s start with w. */
  ghost predicate On(s: Str, w: seq<nat>) { forall i :: 0 <= i < |w| ==> Word(s, i) == w[i] }

  ghost predicate EntryOk(ls: Layers, path: Paths, w: seq<nat>, k: nat, e: Entry) {
    match e
    case Unset => true
    case LV(s, _) => NoNul(s) && On(s, w) && Word(s, |w|) == k
    case Sub(y) => y in ls && y in path && path[y] == w + [k] && FullWord(k)
  }

  ghost predicate LayerOk(ls: Layers, path: Paths, x: nat)
    requires x in ls
  {
    x in path && forall k: nat :: k in ls[x] ==> EntryOk(ls, path, path[x], k, ls[x][k])
  }

  ghost predicate Inv(ls: Layers, path: Paths, root: nat) {
    root in ls && root in path && path[root] == [] && path.Keys == ls.Keys && forall x: nat :: x in ls ==>
      LayerOk(ls, path, x)
  }

  /** The value bound to s, from layer x at depth d on; 0 if there is none. */
  ghost function Found(ls: Layers, x: nat, d: nat, s: Str): nat
    decreases Slices(s) + 1 - (if d <= Slices(s) then d else Slices(s) + 1)
  {
    if x !in ls || d > Slices(s) || Word(s, d) !in ls[x] then 0 else FoundAt(ls, ls[x][Word(s, d)], d, s)
  }

  ghost function FoundAt(ls: Layers, e: Entry, d: nat, s: Str): nat
    requires d <= Slices(s)
    decreases Slices(s) + 1 - d, 0
  {
    match e
    case Unset => 0
    case LV(t, v) => if t == s then v else 0
    case Sub(y) => Found(ls, y, d + 1, s)
  }

  ghost predicate Denotes(ls: Layers, path: Paths, root: nat, m: map<Str, nat>) {
    Inv(ls, path, root) && forall s: Str :: NoNul(s) ==> Found(ls, root, 0, s) == Get(m, s, 0)
  }

  ghost predicate Means(ls: Layers, root: nat, m: map<Str, nat>) { exists path :: Denotes(ls, path, root, m) }

  /** Following the slices of s from the root leads to layer x. */
  ghost predicate Leads(ls: Layers, path: Paths, y: nat, x: nat)
    decreases if x in path && y in path && |path[y]| <= |path[x]| then |path[x]| - |path[y]| else 0
  {
    && x in ls && y in ls && x in path && y in path
    && (y == x ||
        (|path[y]| < |path[x]| && path[x][|path[y]|] in ls[y] && ls[y][path[x][|path[y]|]].Sub? &&
         var z := ls[y][path[x][|path[y]|]].layer; z in path && |path[z]| == |path[y]| + 1 && Leads(ls, path, z, x)))
  }

  lemma EntryFacts(ls: Layers, path: Paths, root: nat, x: nat, k: nat)
    requires Inv(ls, path, root) && x in ls && k in ls[x]
    ensures x in path && EntryOk(ls, path, path[x], k, ls[x][k])
  {
    assert LayerOk(ls, path, x);
  }

  /** Where there is a next layer, the key has a slice for it. */
  lemma InRange(s: Str, d: nat)
    requires NoNul(s) && d <= Slices(s) && FullWord(Word(s, d))
    ensures d + 1 <= Slices(s)
  {
    FullMeans(s, d);
  }

  lemma {:induction false} FindThrough(ls: Layers, path: Paths, root: nat, y: nat, x: nat, s: Str)
    requires Inv(ls, path, root) && Leads(ls, path, y, x) && NoNul(s) && On(s, path[x]) && |path[y]| <= Slices(s)
    ensures |path[x]| <= Slices(s) && Found(ls, y, |path[y]|, s) == Found(ls, x, |path[x]|, s)
    decreases |path[x]| - |path[y]|
  {
    if y != x {
      var k := path[x][|path[y]|];
      EntryFacts(ls, path, root, y, k);
      InRange(s, |path[y]|);
      FindThrough(ls, path, root, ls[y][k].layer, x, s);
    }
  }

  lemma {:induction false} LeadsOn(ls: Layers, path: Paths, root: nat, y: nat, x: nat, k: nat, z: nat)
    requires Inv(ls, path, root) && Leads(ls, path, y, x) && k in ls[x] && ls[x][k] == Sub(z)
    ensures Leads(ls, path, y, z)
    decreases |path[x]| - |path[y]|
  {
    EntryFacts(ls, path, root, x, k);
    if y != x {
      var j := path[x][|path[y]|];
      EntryFacts(ls, path, root, y, j);
      assert path[z][|path[y]|] == j;
      LeadsOn(ls, path, root, ls[y][j].layer, x, k, z);
    }
  }

  // ---- changing one slot ----

  function SetSlot(ls: Layers, x: nat, k: nat, e: Entry): Layers
    requires x in ls
  {
    var l: Layer := ls[x][k := e];
    ls[x := l]
  }

  /** ls' is ls with slot k of layer x changed to e; other layers may be added. */
  ghost predicate Edit(ls: Layers, path: Paths, ls': Layers, path': Paths, x: nat, k: nat, e: Entry) {
    && x in ls && x in ls' && path'.Keys == ls'.Keys && path.Keys == ls.Keys && ls'[x] == ls[x][k := e]
    && (forall y: nat :: y in ls ==> y in ls' && path'[y] == path[y])
    && (forall y: nat :: y in ls && y != x ==> ls'[y] == ls[y])
  }

  lemma EditKeeps(ls: Layers, path: Paths, ls': Layers, path': Paths, root: nat, x: nat, k: nat, e: Entry)
    requires Inv(ls, path, root) && Edit(ls, path, ls', path', x, k, e) && EntryOk(ls', path', path[x], k, e)
    requires forall y: nat :: y in ls' && y !in ls ==> LayerOk(ls', path', y)
    ensures Inv(ls', path', root)
  {
    forall y: nat | y in ls' ensures LayerOk(ls', path', y) {
      if y in ls {
        forall j: nat | j in ls'[y] ensures EntryOk(ls', path', path'[y], j, ls'[y][j]) {
          if y != x || j != k { EntryFacts(ls, path, root, y, j); }
        }
      }
    }
  }

  /** Keys that do not pass through the slot. */
  lemma {:induction false} FindElsewhere(ls: Layers, path: Paths, ls': Layers, path': Paths, root: nat, x: nat, k: nat,
        e: Entry, y: nat, s: Str)
    requires Inv(ls, path, root) && Edit(ls, path, ls', path', x, k, e) && y in ls && NoNul(s)
      && |path[y]| <= Slices(s) && On(s, path[y])
    requires !(On(s, path[x]) && |path[x]| <= Slices(s) && Word(s, |path[x]|) == k)
    ensures Found(ls', y, |path[y]|, s) == Found(ls, y, |path[y]|, s)
    decreases Slices(s) - |path[y]|
  {
    var d := |path[y]|;
    var j := Word(s, d);
    if j in ls[y] && ls[y][j].Sub? {
      EntryFacts(ls, path, root, y, j);
      InRange(s, d);
      FindElsewhere(ls, path, ls', path', root, x, k, e, ls[y][j].layer, s);
    }
  }

  lemma {:induction false} LeadsStays(ls: Layers, path: Paths, ls': Layers, path': Paths, root: nat, x: nat, k: nat,
        e: Entry, y: nat)
    requires Inv(ls, path, root) && Edit(ls, path, ls', path', x, k, e) && Leads(ls, path, y, x)
    ensures Leads(ls', path', y, x)
    decreases |path[x]| - |path[y]|
  {
    if y != x {
      EntryFacts(ls, path, root, y, path[x][|path[y]|]);
      LeadsStays(ls, path, ls', path', root, x, k, e, ls[y][path[x][|path[y]|]].layer);
    }
  }

  /** What the change of one slot does to every key. */
  lemma EditFinds(ls: Layers, path: Paths, ls': Layers, path': Paths, root: nat, x: nat, k: nat, e: Entry, s: Str)
    requires Inv(ls, path, root) && Edit(ls, path, ls', path', x, k, e) && Inv(ls', path', root)
      && Leads(ls, path, root, x) && NoNul(s)
    ensures var d := |path[x]|;
      if On(s, path[x]) && d <= Slices(s) && Word(s, d) == k then
        Found(ls', root, 0, s) == FoundAt(ls', e, d, s)
          && Found(ls, root, 0, s) == if k in ls[x] then FoundAt(ls, ls[x][k], d, s) else 0
      else Found(ls', root, 0, s) == Found(ls, root, 0, s)
  {
    var d := |path[x]|;
    if On(s, path[x]) && d <= Slices(s) && Word(s, d) == k {
      LeadsStays(ls, path, ls', path', root, x, k, e, root);
      FindThrough(ls, path, root, root, x, s);
      FindThrough(ls', path', root, root, x, s);
    } else {
      FindElsewhere(ls, path, ls', path', root, x, k, e, root, s);
    }
  }

  // ---- layers for two keys that share slices ----

  /** From layer x on, the layers hold exactly t and s, one slice after the other until they differ. */
  ghost predicate Twig(ls: Layers, path: Paths, x: nat, t: Str, u: nat, s: Str, v: nat)
    decreases if x in path && |path[x]| <= Slices(s) then Slices(s) + 1 - |path[x]| else 0
  {
    && x in ls && x in path && |path[x]| <= Slices(s) && On(t, path[x]) && On(s, path[x])
    && var d := |path[x]|;
    if Word(t, d) != Word(s, d) then ls[x] == map[Word(t, d) := LV(t, u), Word(s, d) := LV(s, v)]
    else
      && Word(t, d) in ls[x] && ls[x][Word(t, d)].Sub? && ls[x] == map[Word(t, d) := ls[x][Word(t, d)]]
      && TwigOn(ls, path, ls[x][Word(t, d)].layer, d, t, u, s, v)
  }

  ghost predicate TwigOn(ls: Layers, path: Paths, y: nat, d: nat, t: Str, u: nat, s: Str, v: nat)
    requires d <= Slices(s)
    decreases Slices(s) + 1 - d, 0
  {
    y in path && |path[y]| == d + 1 && Twig(ls, path, y, t, u, s, v)
  }

  lemma {:induction false} FindTwig(ls: Layers, path: Paths, root: nat, x: nat, t: Str, u: nat, s: Str, v: nat, q: Str)
    requires Inv(ls, path, root) && Twig(ls, path, x, t, u, s, v) && NoNul(q) && On(q, path[x])
      && |path[x]| <= Slices(q) && t != s
    ensures Found(ls, x, |path[x]|, q) == if q == t then u else if q == s then v else 0
    decreases Slices(s) - |path[x]|
  {
    var d := |path[x]|;
    if Word(t, d) == Word(s, d) && Word(q, d) == Word(t, d) {
      EntryFacts(ls, path, root, x, Word(t, d));
      InRange(q, d);
      FindTwig(ls, path, root, ls[x][Word(t, d)].layer, t, u, s, v, q);
    }
  }

  /** The part of the twig built so far, from x down to tail. */
  ghost predicate Chain(ls: Layers, path: Paths, x: nat, tail: nat, t: Str)
    decreases if x in path && tail in path && |path[x]| <= |path[tail]| then |path[tail]| - |path[x]| else 0
  {
    && x in ls && x in path && tail in ls && tail in path && On(t, path[x])
    && (x == tail ||
        (|path[x]| < |path[tail]| && var k := Word(t, |path[x]|);
         && k in ls[x] && ls[x][k].Sub? && ls[x] == map[k := ls[x][k]]
         && ls[x][k].layer in path && |path[ls[x][k].layer]| == |path[x]| + 1
           && Chain(ls, path, ls[x][k].layer, tail, t)))
  }

  /** Hanging a finished twig at the tail finishes the chain. */
  lemma {:induction false} ChainToTwig(ls: Layers, path: Paths, x: nat, tail: nat, t: Str, u: nat, s: Str, v: nat)
    requires Chain(ls, path, x, tail, t) && Twig(ls, path, tail, t, u, s, v)
    requires forall i: nat :: i < |path[tail]| ==> Word(t, i) == Word(s, i)
    ensures Twig(ls, path, x, t, u, s, v)
    decreases if |path[x]| <= |path[tail]| then |path[tail]| - |path[x]| else 0
  {
    if x != tail { ChainToTwig(ls, path, ls[x][Word(t, |path[x]|)].layer, tail, t, u, s, v); }
  }

  /** A chain does not notice changes below it. */
  lemma {:induction false} ChainStays(ls: Layers, path: Paths, ls': Layers, path': Paths, x: nat, tail: nat, t: Str)
    requires Chain(ls, path, x, tail, t) && tail in ls' && tail in path' && path'[tail] == path[tail]
    requires forall y: nat :: y in ls && y in path && |path[x]| <= |path[y]| < |path[tail]| && y != tail ==>
      y in ls' && y in path' && ls'[y] == ls[y] && path'[y] == path[y]
    requires forall y: nat :: y in path && |path[y]| <= |path[tail]| ==> y in path' && path'[y] == path[y]
    ensures Chain(ls', path', x, tail, t)
    decreases if |path[x]| <= |path[tail]| then |path[tail]| - |path[x]| else 0
  {
    if x != tail { ChainStays(ls, path, ls', path', ls[x][Word(t, |path[x]|)].layer, tail, t); }
  }

  lemma {:induction false} ChainGrows(ls: Layers, path: Paths, x: nat, tail: nat, n: nat, t: Str)
    requires Chain(ls, path, x, tail, t) && Word(t, |path[tail]|) in ls[tail]
      && ls[tail] == map[Word(t, |path[tail]|) := Sub(n)]
    requires n in ls && n in path && |path[n]| == |path[tail]| + 1 && On(t, path[n]) && On(t, path[tail])
      && |path[x]| <= |path[tail]|
    ensures Chain(ls, path, x, n, t)
    decreases |path[tail]| - |path[x]|
  {
    if x != tail { ChainGrows(ls, path, ls[x][Word(t, |path[x]|)].layer, tail, n, t); }
  }

  /** Layers added on the side change nothing that is found. */
  lemma {:induction false} FindGrown(ls: Layers, path: Paths, root: nat, ls': Layers, y: nat, d: nat, s: Str)
    requires Inv(ls, path, root) && y in ls && forall z: nat :: z in ls ==> z in ls' && ls'[z] == ls[z]
    ensures Found(ls', y, d, s) == Found(ls, y, d, s)
    decreases Slices(s) + 1 - (if d <= Slices(s) then d else Slices(s) + 1)
  {
    if d <= Slices(s) && Word(s, d) in ls[y] && ls[y][Word(s, d)].Sub? {
      EntryFacts(ls, path, root, y, Word(s, d));
      FindGrown(ls, path, root, ls', ls[y][Word(s, d)].layer, d + 1, s);
    }
  }

  lemma GrownMeans(ls: Layers, path: Paths, root: nat, m: map<Str, nat>, ls': Layers, path': Paths)
    requires Denotes(ls, path, root, m) && Inv(ls', path', root)
    requires forall z: nat :: z in ls ==> z in ls' && ls'[z] == ls[z]
    ensures Denotes(ls', path', root, m)
  {
    forall s: Str | NoNul(s) ensures Found(ls', root, 0, s) == Get(m, s, 0) {
      FindGrown(ls, path, root, ls', root, 0, s);
    }
  }

  /** The first d slices of t. */
  function Words(t: Str, d: nat): (w: seq<nat>)
    ensures |w| == d && forall i :: 0 <= i < d ==> w[i] == Word(t, i)
  {
    if d == 0 then [] else Words(t, d - 1) + [Word(t, d - 1)]
  }

  /** No slot is unset, but in layer o. */
  ghost predicate OnlyLoose(ls: Layers, o: Option<nat>) {
    forall x: nat, k: nat :: x in ls && k in ls[x] && ls[x][k].Unset? ==> o == Some(x)
  }

  // ---- what one persisted store can do to the layers ----

  /** Slot k of layer x is set. */
  predicate SlotStore(ls: Layers, ls': Layers, x: nat, k: nat) {
    x in ls && x in ls' && k in ls'[x] && ls' == SetSlot(ls, x, k, ls'[x][k])
  }

  /** A layer that was not there before, filled while nothing leads to it. */
  predicate LayerStore(ls: Layers, ls': Layers, n: nat) { n !in ls && n in ls' && ls' == ls[n := ls'[n]] }

  ghost predicate OneStore(ls: Layers, ls': Layers) {
    (exists x: nat, k: nat :: SlotStore(ls, ls', x, k)) || exists n: nat :: LayerStore(ls, ls', n)
  }

  /** The log ends with the present layers, and from each state to the next it takes one store. */
  ghost predicate Trace(log: seq<Layers>, ls: Layers) {
    log != [] && log[|log| - 1] == ls && forall i: nat :: i + 1 < |log| ==> OneStore(log[i], log[i + 1])
  }

  lemma TraceOn(log: seq<Layers>, ls: Layers, ls': Layers)
    requires Trace(log, ls) && OneStore(ls, ls')
    ensures Trace(log + [ls'], ls')
  {
    hide OneStore;
    var on := log + [ls'];
    forall i: nat | i + 1 < |on| ensures OneStore(on[i], on[i + 1]) {
      if i + 1 < |log| { assert OneStore(log[i], log[i + 1]); }
    }
  }

  lemma TraceSlot(log: seq<Layers>, ls: Layers, x: nat, k: nat, e: Entry)
    requires Trace(log, ls) && x in ls
    ensures Trace(log + [SetSlot(ls, x, k, e)], SetSlot(ls, x, k, e))
  {
    hide Trace;
    assert SlotStore(ls, SetSlot(ls, x, k, e), x, k);
    TraceOn(log, ls, SetSlot(ls, x, k, e));
  }

  lemma TraceLayer(log: seq<Layers>, ls: Layers, n: nat, l: Layer, k: nat)
    requires Trace(log, ls) && (n in ls ==> k in l && l == ls[n][k := l[k]])
    ensures Trace(log + [ls[n := l]], ls[n := l])
  {
    hide Trace;
    if n in ls { assert SlotStore(ls, ls[n := l], n, k); } else { assert LayerStore(ls, ls[n := l], n); }
    TraceOn(log, ls, ls[n := l]);
  }

  class StringTree {
    var layers: Layers
    const root: nat
    var brk: nat
    ghost var path: Paths
    /** Every state that a crash could have left behind. */
    ghost var log: seq<Layers>

    ghost predicate Valid(m: map<Str, nat>)
      reads this
    {
      && Denotes(layers, path, root, m) && OnlyLoose(layers, None) && Trace(log, layers)
      && forall x: nat :: x in layers ==> x < brk
    }

    ghost predicate Kept(was: seq<Layers>, m: map<Str, nat>)
      reads this
    {
      was <= log && forall i :: |was| <= i < |log| ==> Means(log[i], root, m)
    }

    /** Of the states persisted since `was`, the last stands for m', the others for m. */
    ghost predicate Committed(was: seq<Layers>, m: map<Str, nat>, m': map<Str, nat>)
      reads this
    {
      && was <= log && |was| < |log| && log[|log| - 1] == layers && Means(layers, root, m')
      && forall i :: |was| <= i < |log| - 1 ==> Means(log[i], root, m)
    }

    constructor ()
      ensures Valid(map[])
    {
      root := 0;
      layers := map[0 := map[]];
      brk := 1;
      path := map[0 := []];
      log := [map[0 := map[]]];
    }

    /** get for a string key. */
    method Lookup(s: Str, ghost m: map<Str, nat>) returns (r: nat)
      requires Valid(m) && NoNul(s)
      ensures r == Get(m, s, 0)
    {
      hide Trace, Word, Slices, Found;
      var fkey := MakeLeaf(s);
      var x, depth := root, 0;
      while true
        invariant x in layers && x in path && |path[x]| == depth < |fkey| && On(s, path[x])
        invariant Found(layers, root, 0, s) == Found(layers, x, depth, s)
        decreases |fkey| - depth
      {
        FindStep(layers, x, depth, s);
        if fkey[depth] !in layers[x] { return 0; }
        EntryFacts(layers, path, root, x, fkey[depth]);
        var e := layers[x][fkey[depth]];
        if e.LV? { return if e.key == s then e.value else 0; }
        InRange(s, depth);
        x, depth := e.layer, depth + 1;
      }
    }

    /** put for a string key: every state persisted before the last store stands for the old map. */
    method Put(s: Str, v: nat, ghost m: map<Str, nat>)
      requires Valid(m) && NoNul(s)
      modifies this
      ensures Valid(m[s := v]) && Committed(old(log), m, m[s := v])
    {
      hide Trace, Word, Slices, Found, Inv, Denotes, Leads, EntryOk;
      var fkey := MakeLeaf(s);
      var x, depth := root, 0;
      StartAt(layers, path, root, m, s);
      while true
        invariant Valid(m) && layers == old(layers) && log == old(log) && x in layers && x in path
          && Leads(layers, path, root, x)
        invariant |path[x]| == depth < |fkey| && On(s, path[x])
        decreases |fkey| - depth
      {
        var k := fkey[depth];
        if k !in layers[x] {
          StoreKey(x, k, s, v, m);
          return;
        }
        var e := layers[x][k];
        if e.LV? {
          if e.key == s { StoreKey(x, k, s, v, m); } else { MakeNewLayer(x, k, e.key, e.value, s, v, depth + 1, m); }
          return;
        }
        NextLayer(layers, path, root, m, x, k, e.layer, s);
        x, depth := e.layer, depth + 1;
      }
    }

    /** Binds the key in its layer: leaf_insert, or the store of a new value. */
    method StoreKey(x: nat, k: nat, s: Str, v: nat, ghost m: map<Str, nat>)
      requires Valid(m) && x in layers && x in path && Leads(layers, path, root, x) && NoNul(s) && On(s, path[x])
        && |path[x]| <= Slices(s) && Word(s, |path[x]|) == k
      requires k in layers[x] ==> layers[x][k].LV? && layers[x][k].key == s
      modifies `layers, `log
      ensures Valid(m[s := v]) && log == old(log) + [layers] && Means(layers, root, m[s := v])
    {
      hide Trace, Word, Slices, Found, Inv, Denotes, Leads, On;
      StoreMeans(layers, path, root, m, x, k, s, v);
      TraceSlot(log, layers, x, k, LV(s, v));
      layers := SetSlot(layers, x, k, LV(s, v));
      log := log + [layers];
    }

    /** The layers of ls0 are as they were; what was added is not reached from them. */
    ghost predicate Beside(ls0: Layers, path0: Paths, m: map<Str, nat>)
      reads this
    {
      && Denotes(ls0, path0, root, m) && Inv(layers, path, root) && Trace(log, layers)
      && (forall x: nat :: x in layers ==> x < brk)
      && forall z: nat :: z in ls0 ==> z in layers && layers[z] == ls0[z] && z in path0 && path[z] == path0[z]
    }

    /** Writes a layer that nothing leads to yet. */
    method StoreBeside(n: nat, l: Layer, ghost p: seq<nat>, ghost at: nat, ghost ls0: Layers, ghost path0: Paths,
          ghost m: map<Str, nat>)
      requires Beside(ls0, path0, m) && n !in ls0 && n <= brk
        && (if n in layers then n in path && path[n] == p && at in l && l == layers[n][at := l[at]] else n == brk)
      requires forall k: nat :: k in l ==> EntryOk(layers, path, p, k, l[k])
      modifies `layers, `path, `brk, `log
      ensures Beside(ls0, path0, m) && layers == old(layers)[n := l] && path == old(path)[n := p]
        && brk == (if n == old(brk) then n + 1 else old(brk))
      ensures log == old(log) + [layers] && Means(layers, root, m)
    {
      hide Found, Trace;
      StoreInv(layers, path, root, n, l, p);
      TraceLayer(log, layers, n, l, at);
      layers, path, brk := layers[n := l], path[n := p], if n == brk then n + 1 else brk;
      log := log + [layers];
      GrownMeans(ls0, path0, root, m, layers, path);
    }

    /** Writes the layer for slice b + 1 and links the tail of the chain, if there is one, to it. */
    method Extend(head: Option<nat>, tail: nat, b: nat, l: Layer, t: Str, ghost s: Str, ghost a: nat, ghost last: nat,
          ghost ls0: Layers, ghost path0: Paths, ghost m: map<Str, nat>) returns (n: nat)
      requires Beside(ls0, path0, m) && a <= b <= last && Shares(s, t, last)
        && OnlyLoose(layers, if head.None? then None else Some(tail))
      requires forall k: nat :: k in l ==> EntryOk(layers, path, Words(t, b), k, l[k])
      requires if head.None? then a == b else a < b && TwigSoFar(ls0, layers, path, head.value, tail, a, b - 1, t)
      modifies `layers, `path, `brk, `log
      ensures Beside(ls0, path0, m) && Kept(old(log), m) && OnlyLoose(layers, Some(n))
        && (Complete(l) ==> OnlyLoose(layers, None))
      ensures n !in ls0 && n in layers && n in path && path[n] == Words(t, b) && layers[n] == l
      ensures
        var top := if head.None? then n else head.value;
        top !in ls0 && top in path && path[top] == Words(t, a) && Chain(layers, path, top, n, t)
    {
      hide Trace, Word, Slices, Found, Chain, EntryOk, Denotes, Inv, OnlyLoose, TwigSoFar, Means;
      n := brk;
      ghost var ls1, path1 := layers, path;
      InDomains(layers, path, root);
      StoreBeside(n, l, Words(t, b), 0, ls0, path0, m);
      if head.Some? {
        HangTail(head.value, tail, n, a, b - 1, t, s, last, l, ls0, path0, ls1, path1, m);
        LooseMove(ls1, tail, n, l, Word(t, b - 1));
      } else {
        LooseAdd(ls1, n, l);
        ChainStarts(layers, path, n, b, t);
      }
    }

    /** Links the tail of the chain to a new layer. */
    method HangTail(ghost head: nat, tail: nat, n: nat, ghost a: nat, b: nat, t: Str, ghost s: Str, ghost last: nat,
          ghost l: Layer, ghost ls0: Layers, ghost path0: Paths, ghost ls1: Layers, ghost path1: Paths,
          ghost m: map<Str, nat>)
      requires Beside(ls0, path0, m) && TwigSoFar(ls0, ls1, path1, head, tail, a, b, t) && n !in ls1 && n !in path1
        && n !in ls0 && n in layers && n < brk
      requires layers == ls1[n := l] && path == path1[n := Words(t, b + 1)] && Shares(s, t, last) && b < last
      modifies `layers, `path, `brk, `log
      ensures Beside(ls0, path0, m) && log == old(log) + [layers] && Means(layers, root, m)
      ensures tail != n && path == old(path) && layers == old(layers)[tail := Only(Word(t, b), Sub(n))]
      ensures head !in ls0 && head in path && Chain(layers, path, head, n, t) && path[head] == Words(t, a)
    {
      hide Trace, Word, Slices, Found, Denotes, Inv, Chain;
      SubOk(layers, path, Words(t, b), Word(t, b), n);
      hide EntryOk;
      assert tail in layers && path[tail] == Words(t, b);
      TwigExtends(ls0, ls1, path1, head, tail, a, b, t, n, l);
      StoreBeside(tail, Only(Word(t, b), Sub(n)), path[tail], Word(t, b), ls0, path0, m);
      assert path == old(path);
    }

    /** The layers for the slices both keys share, from `from` up to `last`; the tail leads nowhere yet. */
    method BuildChain(t: Str, s: Str, from: nat, ghost last: nat, ghost ls0: Layers, ghost path0: Paths,
          ghost m: map<Str, nat>)
      returns (head: Option<nat>, tail: nat, depth: nat)
      requires Beside(ls0, path0, m) && from <= last && Shares(s, t, last) && OnlyLoose(layers, None)
      modifies `layers, `path, `brk, `log
      ensures Beside(ls0, path0, m) && Kept(old(log), m) && depth == last
        && OnlyLoose(layers, if head.None? then None else Some(tail))
      ensures
        if head.None? then last == from
        else from < last && TwigSoFar(ls0, layers, path, head.value, tail, from, last - 1, t)
    {
      hide Trace, Word, Slices, Found, Chain, EntryOk, Denotes, Inv, OnlyLoose, TwigSoFar, Means;
      head, tail, depth := None, 0, from;
      while Word(t, depth) == Word(s, depth)
        invariant from <= depth <= last && Beside(ls0, path0, m) && Kept(old(log), m)
          && OnlyLoose(layers, if head.None? then None else Some(tail))
        invariant
          if head.None? then depth == from
          else from < depth && TwigSoFar(ls0, layers, path, head.value, tail, from, depth - 1, t)
        decreases last - depth
      {
        UnsetOk(layers, path, Words(t, depth), Word(t, depth));
        var n := Extend(head, tail, depth, Only(Word(t, depth), Unset), t, s, from, last, ls0, path0, m);
        if head.None? { head := Some(n); }
        TwigNow(ls0, layers, path, head.value, n, from, depth, t);
        tail := n;
        depth := depth + 1;
      }
    }

    /** make_new_layer: a chain of layers for the slices both keys share, then one that holds both. */
    method MakeNewLayer(x: nat, k: nat, t: Str, u: nat, s: Str, v: nat, from: nat, ghost m: map<Str, nat>)
      requires Valid(m) && Leads(layers, path, root, x) && from == |path[x]| + 1 && k in layers[x]
        && layers[x][k] == LV(t, u)
      requires NoNul(s) && s != t && On(s, path[x]) && |path[x]| <= Slices(s) && Word(s, |path[x]|) == k
      modifies `layers, `path, `brk, `log
      ensures Valid(m[s := v]) && Committed(old(log), m, m[s := v])
    {
      hide Trace, Word, Slices, Found, Twig, Leads, Inv, Denotes, Shares, On, FullWord, TwigSoFar, Words, NoNul, Means;
      ghost var ls0, path0 := layers, path;
      ghost var last := KeyFacts(layers, path, root, m, x, k, t, u, s);
      var head, tail, depth := BuildChain(t, s, from, last, ls0, path0, m);
      var top := FinishTwig(head, tail, depth, t, u, s, v, from, last, ls0, path0, m);
      LinkTwig(x, k, t, u, s, v, top, ls0, path0, m);
    }

    /** The layer where the keys part, at the end of the chain. */
    method FinishTwig(head: Option<nat>, tail: nat, depth: nat, t: Str, u: nat, s: Str, v: nat, ghost from: nat,
          ghost last: nat, ghost ls0: Layers, ghost path0: Paths, ghost m: map<Str, nat>) returns (top: nat)
      requires Beside(ls0, path0, m) && depth == last && from <= last && Shares(s, t, last)
        && OnlyLoose(layers, if head.None? then None else Some(tail))
      requires
        if head.None? then last == from
        else from < last && TwigSoFar(ls0, layers, path, head.value, tail, from, last - 1, t)
      modifies `layers, `path, `brk, `log
      ensures Beside(ls0, path0, m) && Kept(old(log), m) && OnlyLoose(layers, None)
      ensures top !in ls0 && top in path && path[top] == Words(t, from) && Twig(layers, path, top, t, u, s, v)
    {
      hide Trace, Word, Slices, Found, Chain, Twig, Inv, Denotes, OnlyLoose, TwigSoFar, Means, EntryOk;
      var both := map[Word(t, depth) := LV(t, u), Word(s, depth) := LV(s, v)];
      BothOk(layers, path, t, u, s, v, last);
      var n := Extend(head, tail, depth, both, t, s, from, last, ls0, path0, m);
      top := if head.None? then n else head.value;
      TwigEnds(layers, path, n, t, u, s, v, last);
      ChainToTwig(layers, path, top, n, t, u, s, v);
    }

    /** The store that makes the new layers visible. */
    method LinkTwig(x: nat, k: nat, ghost t: Str, ghost u: nat, ghost s: Str, ghost v: nat, head: nat,
          ghost ls0: Layers, ghost path0: Paths, ghost m: map<Str, nat>)
      requires Beside(ls0, path0, m) && OnlyLoose(layers, None) && Leads(ls0, path0, root, x) && k in ls0[x]
        && ls0[x][k] == LV(t, u) && s != t && NoNul(s)
      requires On(s, path0[x]) && |path0[x]| <= Slices(s) && Word(s, |path0[x]|) == k && FullWord(k)
      requires head !in ls0 && head in path && path[head] == path0[x] + [k] && Twig(layers, path, head, t, u, s, v)
      modifies `layers, `log
      ensures Valid(m[s := v]) && log == old(log) + [layers] && Means(layers, root, m[s := v])
    {
      hide Trace, Word, Slices, Found, Twig;
      TwigMeans(ls0, path0, layers, path, root, m, x, k, t, u, s, v, head);
      TraceSlot(log, layers, x, k, Sub(head));
      layers := SetSlot(layers, x, k, Sub(head));
      log := log + [layers];
    }
  }

  lemma FindStep(ls: Layers, x: nat, d: nat, s: Str)
    requires x in ls && d <= Slices(s)
    ensures Word(s, d) !in ls[x] ==> Found(ls, x, d, s) == 0
    ensures Word(s, d) in ls[x] ==> Found(ls, x, d, s) == FoundAt(ls, ls[x][Word(s, d)], d, s)
  {
  }

  lemma StoreInv(ls: Layers, path: Paths, root: nat, n: nat, l: Layer, p: seq<nat>)
    requires Inv(ls, path, root) && n != root && (n in ls ==> path[n] == p)
    requires forall k: nat :: k in l ==> EntryOk(ls, path, p, k, l[k])
    ensures Inv(ls[n := l], path[n := p], root)
  {
    var ls', path' := ls[n := l], path[n := p];
    forall y: nat | y in ls' ensures LayerOk(ls', path', y) {
      forall j: nat | j in ls'[y] ensures EntryOk(ls', path', path'[y], j, ls'[y][j]) {
        if y != n { EntryFacts(ls, path, root, y, j); }
      }
    }
  }

  /** Two keys that agree on the slices up to and including the one at |w|: where they first differ. */
  lemma SharedSlices(s: Str, t: Str, w: seq<nat>, k: nat) returns (last: nat)
    requires NoNul(s) && NoNul(t) && s != t && On(s, w) && On(t, w) && Word(s, |w|) == Word(t, |w|) == k
    ensures |w| < last && Shares(s, t, last) && FullWord(k)
  {
    last := SlicesOrder(s, t);
    assert forall i: nat :: i <= |w| ==> Word(s, i) == Word(t, i);
    forall j: nat | j < last ensures FullWord(Word(t, j)) { FullMeans(t, j); }
  }

  ghost predicate TwigSoFar(ls0: Layers, ls: Layers, path: Paths, head: nat, tail: nat, a: nat, b: nat, t: Str) {
    && head in ls && head in path && tail in ls && tail in path && head !in ls0 && tail !in ls0
      && Chain(ls, path, head, tail, t) && a <= b && path[head] == Words(t, a) && path[tail] == Words(t, b)
    && ls[tail] == Only(Word(t, b), Unset)
  }

  lemma TwigExtends(ls0: Layers, ls: Layers, path: Paths, head: nat, tail: nat, a: nat, b: nat, t: Str, n: nat,
        l: Layer)
    requires TwigSoFar(ls0, ls, path, head, tail, a, b, t) && n !in ls && n !in path && n !in ls0
    ensures var ls', path' := ls[n := l][tail := Only(Word(t, b), Sub(n))], path[n := Words(t, b + 1)];
      Chain(ls', path', head, n, t) && head !in ls0 && path'[head] == Words(t, a)
  {
    hide Word;
    var ls', path' := ls[n := l][tail := Only(Word(t, b), Sub(n))], path[n := Words(t, b + 1)];
    ChainStays(ls, path, ls', path', head, tail, t);
    ChainGrows(ls', path', head, tail, n, t);
  }

  lemma {:induction false} TwigStays(ls: Layers, path: Paths, ls': Layers, x: nat, t: Str, u: nat, s: Str, v: nat)
    requires Twig(ls, path, x, t, u, s, v)
    requires forall y: nat :: y in ls && y in path && |path[y]| >= |path[x]| ==> y in ls' && ls'[y] == ls[y]
    ensures Twig(ls', path, x, t, u, s, v)
    decreases Slices(s) - |path[x]|
  {
    var d := |path[x]|;
    if Word(t, d) == Word(s, d) { TwigStays(ls, path, ls', ls[x][Word(t, d)].layer, t, u, s, v); }
  }

  lemma TwigMeans(ls0: Layers, path0: Paths, ls: Layers, path: Paths, root: nat, m: map<Str, nat>, x: nat, k: nat,
        t: Str, u: nat, s: Str, v: nat, head: nat)
    requires Denotes(ls0, path0, root, m) && Inv(ls, path, root)
    requires forall z: nat :: z in ls0 ==> z in ls && ls[z] == ls0[z] && z in path0 && path[z] == path0[z]
    requires Leads(ls0, path0, root, x) && k in ls0[x] && ls0[x][k] == LV(t, u) && s != t && NoNul(s)
    requires On(s, path0[x]) && |path0[x]| <= Slices(s) && Word(s, |path0[x]|) == k && FullWord(k)
    requires head !in ls0 && head in path && path[head] == path0[x] + [k] && Twig(ls, path, head, t, u, s, v)
    ensures Denotes(SetSlot(ls, x, k, Sub(head)), path, root, m[s := v])
  {
    hide Word, Slices, Found;
    var ls' := SetSlot(ls, x, k, Sub(head));
    assert head in ls && Edit(ls, path, ls', path, x, k, Sub(head));
    EditKeeps(ls, path, ls', path, root, x, k, Sub(head));
    GrownMeans(ls0, path0, root, m, ls, path);
    LeadsGrown(ls0, path0, ls, path, root, root, x);
    TwigStays(ls, path, ls', head, t, u, s, v);
    hide Twig;
    forall q: Str | NoNul(q) ensures Found(ls', root, 0, q) == Get(m[s := v], q, 0) {
      EditFinds(ls, path, ls', path, root, x, k, Sub(head), q);
      TwigFound(ls', path, root, x, k, head, t, u, s, v, q);
    }
  }

  lemma TwigFound(ls: Layers, path: Paths, root: nat, x: nat, k: nat, head: nat, t: Str, u: nat, s: Str, v: nat, q: Str)
    requires Inv(ls, path, root) && x in path && head in path && path[head] == path[x] + [k]
      && Twig(ls, path, head, t, u, s, v) && t != s && NoNul(q) && FullWord(k)
    ensures On(q, path[x]) && |path[x]| <= Slices(q) && Word(q, |path[x]|) == k ==>
      FoundAt(ls, Sub(head), |path[x]|, q) == if q == t then u else if q == s then v else 0
    ensures On(s, path[x]) && Word(s, |path[x]|) == k
  {
    hide Word, Slices, Found;
    TwigOnPath(ls, path, head, t, u, s, v);
    assert path[head][|path[x]|] == k && forall i :: 0 <= i < |path[x]| ==> path[head][i] == path[x][i];
    if On(q, path[x]) && |path[x]| <= Slices(q) && Word(q, |path[x]|) == k {
      InRange(q, |path[x]|);
      FindTwig(ls, path, root, head, t, u, s, v, q);
    }
  }

  lemma TwigOnPath(ls: Layers, path: Paths, x: nat, t: Str, u: nat, s: Str, v: nat)
    requires Twig(ls, path, x, t, u, s, v)
    ensures x in ls && x in path && On(t, path[x]) && On(s, path[x])
  {
  }

  lemma {:induction false} LeadsGrown(ls: Layers, path: Paths, ls': Layers, path': Paths, root: nat, y: nat, x: nat)
    requires Inv(ls, path, root) && Leads(ls, path, y, x)
    requires forall z: nat :: z in ls ==> z in ls' && ls'[z] == ls[z] && z in path' && path'[z] == path[z]
    ensures Leads(ls', path', y, x)
    decreases |path[x]| - |path[y]|
  {
    if y != x {
      EntryFacts(ls, path, root, y, path[x][|path[y]|]);
      LeadsGrown(ls, path, ls', path', root, ls[y][path[x][|path[y]|]].layer, x);
    }
  }

  /** s and t share the slices before last, and differ there. */
  ghost predicate Shares(s: Str, t: Str, last: nat) {
    && NoNul(s) && NoNul(t) && s != t && last <= Slices(s) && last <= Slices(t) && Word(s, last) != Word(t, last)
    && forall j: nat :: j < last ==> Word(s, j) == Word(t, j) && FullWord(Word(t, j))
  }

  lemma LeadsIn(ls: Layers, path: Paths, y: nat, x: nat)
    requires Leads(ls, path, y, x)
    ensures x in ls && x in path
  {
  }

  /** The key in a slot and another one that comes to the same slot. */
  lemma KeyFacts(ls: Layers, path: Paths, root: nat, m: map<Str, nat>, x: nat, k: nat, t: Str, u: nat, s: Str)
        returns (last: nat)
    requires Denotes(ls, path, root, m) && Leads(ls, path, root, x) && k in ls[x] && ls[x][k] == LV(t, u)
    requires NoNul(s) && s != t && On(s, path[x]) && |path[x]| <= Slices(s) && Word(s, |path[x]|) == k
    ensures Inv(ls, path, root) && x in ls && x in path && path.Keys == ls.Keys
    ensures |path[x]| < last && Shares(s, t, last) && FullWord(k) && Words(t, |path[x]| + 1) == path[x] + [k]
  {
    hide Word, Slices, Found;
    EntryFacts(ls, path, root, x, k);
    last := SharedSlices(s, t, path[x], k);
    PathIs(t, path[x], k);
  }

  lemma InDomains(ls: Layers, path: Paths, root: nat)
    requires Inv(ls, path, root)
    ensures ls.Keys == path.Keys
  {
  }

  lemma UnsetOk(ls: Layers, path: Paths, w: seq<nat>, k: nat)
    ensures EntryOk(ls, path, w, k, Unset)
  {
  }

  lemma SubOk(ls: Layers, path: Paths, w: seq<nat>, k: nat, n: nat)
    requires n in ls && n in path && path[n] == w + [k] && FullWord(k)
    ensures EntryOk(ls, path, w, k, Sub(n))
  {
  }

  lemma BothOk(ls: Layers, path: Paths, t: Str, u: nat, s: Str, v: nat, last: nat)
    requires Shares(s, t, last)
    ensures EntryOk(ls, path, Words(t, last), Word(t, last), LV(t, u))
      && EntryOk(ls, path, Words(t, last), Word(s, last), LV(s, v))
  {
    hide Word;
  }

  lemma PathIs(t: Str, w: seq<nat>, k: nat)
    requires On(t, w) && Word(t, |w|) == k
    ensures Words(t, |w| + 1) == w + [k]
  {
    hide Word;
  }

  lemma ChainStarts(ls: Layers, path: Paths, n: nat, d: nat, t: Str)
    requires n in ls && n in path && path[n] == Words(t, d)
    ensures Chain(ls, path, n, n, t)
  {
    hide Word;
  }

  lemma TwigNow(ls0: Layers, ls: Layers, path: Paths, head: nat, n: nat, a: nat, b: nat, t: Str)
    requires head !in ls0 && n !in ls0 && head in path && Chain(ls, path, head, n, t) && n in ls && n in path && a <= b
    requires path[head] == Words(t, a) && path[n] == Words(t, b) && ls[n] == Only(Word(t, b), Unset)
    ensures TwigSoFar(ls0, ls, path, head, n, a, b, t)
  {
    hide Word;
  }

  lemma TwigEnds(ls: Layers, path: Paths, n: nat, t: Str, u: nat, s: Str, v: nat, last: nat)
    requires Shares(s, t, last) && n in ls && n in path && path[n] == Words(t, last)
      && ls[n] == map[Word(t, last) := LV(t, u), Word(s, last) := LV(s, v)]
    ensures Twig(ls, path, n, t, u, s, v)
  {
    hide Word, Slices;
  }

  lemma StartAt(ls: Layers, path: Paths, root: nat, m: map<Str, nat>, s: Str)
    requires Denotes(ls, path, root, m)
    ensures root in ls && root in path && path[root] == [] && Leads(ls, path, root, root) && On(s, path[root])
  {
  }

  lemma NextLayer(ls: Layers, path: Paths, root: nat, m: map<Str, nat>, x: nat, k: nat, y: nat, s: Str)
    requires Denotes(ls, path, root, m) && x in ls && x in path && Leads(ls, path, root, x) && k in ls[x]
      && ls[x][k] == Sub(y)
    requires NoNul(s) && On(s, path[x]) && |path[x]| <= Slices(s) && Word(s, |path[x]|) == k
    ensures y in ls && y in path && |path[y]| == |path[x]| + 1 && On(s, path[y]) && Leads(ls, path, root, y)
      && |path[y]| <= Slices(s)
  {
    hide Word, Slices, Found;
    EntryFacts(ls, path, root, x, k);
    LeadsOn(ls, path, root, root, x, k, y);
    InRange(s, |path[x]|);
  }

  lemma StoreMeans(ls: Layers, path: Paths, root: nat, m: map<Str, nat>, x: nat, k: nat, s: Str, v: nat)
    requires Denotes(ls, path, root, m) && x in ls && x in path && Leads(ls, path, root, x)
    requires NoNul(s) && On(s, path[x]) && |path[x]| <= Slices(s) && Word(s, |path[x]|) == k
    requires k in ls[x] ==> ls[x][k].LV? && ls[x][k].key == s
    ensures Denotes(SetSlot(ls, x, k, LV(s, v)), path, root, m[s := v])
  {
    hide Word, Slices, Found;
    var ls' := SetSlot(ls, x, k, LV(s, v));
    EditKeeps(ls, path, ls', path, root, x, k, LV(s, v));
    hide Leads, Inv;
    forall q: Str | NoNul(q) ensures Found(ls', root, 0, q) == Get(m[s := v], q, 0) {
      EditFinds(ls, path, ls', path, root, x, k, LV(s, v), q);
    }
  }

  ghost predicate Complete(l: Layer) { forall k: nat :: k in l ==> !l[k].Unset? }

  lemma LooseAdd(ls: Layers, n: nat, l: Layer)
    requires OnlyLoose(ls, None)
    ensures OnlyLoose(ls[n := l], Some(n)) && (Complete(l) ==> OnlyLoose(ls[n := l], None))
  {
  }

  lemma LooseMove(ls: Layers, tail: nat, n: nat, l: Layer, k: nat)
    requires OnlyLoose(ls, Some(tail)) && n != tail
    ensures
      var e: Layer := map[k := Sub(n)];
      var ls' := ls[n := l][tail := e];
      OnlyLoose(ls', Some(n)) && (Complete(l) ==> OnlyLoose(ls', None))
  {
  }
}
