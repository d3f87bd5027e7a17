/**
 * String keys all the way down: every layer is a tree of its own, and the value word of a slot leads to
 * a key or to the next layer.  A store inside one tree, a split and its repair included, is a store of
 * the whole.
 */
module MassForest {
  import opened Common
  import opened MassTree
  import opened Masstree
  import opened MassStrings
  import MassLayers

  /** The trees of the layers, and what each value word stands for. */
  datatype Forest = Forest(trees: map<nat, Tree>, words: map<nat, MassLayers.Entry>)

  /** The tree t stands for m, and m, its value words read, for the layer l. */
  ghost predicate LayerIs(t: Tree, words: map<nat, MassLayers.Entry>, l: MassLayers.Layer, m: map<nat, nat>) {
    Means(t, m) && m.Keys == l.Keys && forall k: nat :: k in m ==> m[k] in words && words[m[k]] == l[k]
  }

  ghost predicate LayerAt(f: Forest, ls: MassLayers.Layers, x: nat) {
    x in ls && x in f.trees && exists m :: LayerIs(f.trees[x], f.words, ls[x], m)
  }

  /** The forest holds the layers ls; there may be trees besides that nothing leads to yet. */
  ghost predicate Holds(f: Forest, ls: MassLayers.Layers) { forall x: nat :: x in ls ==> LayerAt(f, ls, x) }

  /** The forest stands for the map m of strings. */
  ghost predicate Stands(f: Forest, root: nat, m: map<Str, nat>) {
    exists ls :: Holds(f, ls) && MassLayers.Means(ls, root, m)
  }

  function WithTree(f: Forest, x: nat, t: Tree): Forest { f.(trees := f.trees[x := t]) }

  lemma SameLayer(f: Forest, ls: MassLayers.Layers, ls': MassLayers.Layers, x: nat)
    requires LayerAt(f, ls, x) && LayerAt(f, ls', x)
    ensures ls[x] == ls'[x]
  {
    hide Means;
    var m :| LayerIs(f.trees[x], f.words, ls[x], m);
    var m' :| LayerIs(f.trees[x], f.words, ls'[x], m');
    MeansOne(f.trees[x], m, m');
  }

  lemma {:induction false} SameFound(f: Forest, ls: MassLayers.Layers, ls': MassLayers.Layers, path: MassLayers.Paths,
        path': MassLayers.Paths, root: nat, x: nat, d: nat, s: Str)
    requires Holds(f, ls) && Holds(f, ls') && MassLayers.Inv(ls, path, root) && MassLayers.Inv(ls', path', root)
    requires x in ls && x in ls'
    ensures MassLayers.Found(ls, x, d, s) == MassLayers.Found(ls', x, d, s)
    decreases Slices(s) + 1 - (if d <= Slices(s) then d else Slices(s) + 1)
  {
    hide LayerAt, MassLayers.On, Slices, Word;
    SameLayer(f, ls, ls', x);
    if d <= Slices(s) && Word(s, d) in ls[x] {
      var e := ls[x][Word(s, d)];
      assert MassLayers.LayerOk(ls, path, x) && MassLayers.LayerOk(ls', path', x);
      if e.Sub? {
        assert MassLayers.EntryOk(ls, path, path[x], Word(s, d), e);
        assert MassLayers.EntryOk(ls', path', path'[x], Word(s, d), e);
        SameFound(f, ls, ls', path, path', root, e.layer, d + 1, s);
      }
    }
  }

  /** A forest, however torn its trees, binds each key in one way only. */
  lemma StandsOne(f: Forest, root: nat, m: map<Str, nat>, m': map<Str, nat>, s: Str)
    requires Stands(f, root, m) && Stands(f, root, m') && NoNul(s)
    ensures Get(m, s, 0) == Get(m', s, 0)
  {
    hide Holds, MassLayers.Inv, MassLayers.Found;
    var ls :| Holds(f, ls) && MassLayers.Means(ls, root, m);
    var ls' :| Holds(f, ls') && MassLayers.Means(ls', root, m');
    var path :| MassLayers.Denotes(ls, path, root, m);
    var path' :| MassLayers.Denotes(ls', path', root, m');
    RootIn(ls, path, root);
    RootIn(ls', path', root);
    SameFound(f, ls, ls', path, path', root, root, 0, s);
  }

  lemma RootIn(ls: MassLayers.Layers, path: MassLayers.Paths, root: nat)
    requires MassLayers.Inv(ls, path, root)
    ensures root in ls
  {
  }

  /** The tree of a layer that nothing leads to yet may be in any state, and new words may be written. */
  lemma OutOfSight(f: Forest, ls: MassLayers.Layers, root: nat, m: map<Str, nat>, x: nat, t: Tree,
        words: map<nat, MassLayers.Entry>)
    requires Holds(f, ls) && MassLayers.Means(ls, root, m) && x !in ls
    requires forall w: nat :: w in f.words ==> w in words && words[w] == f.words[w]
    ensures Holds(WithTree(f, x, t).(words := words), ls) && Stands(WithTree(f, x, t).(words := words), root, m)
  {
    hide Means, MassLayers.Means;
    var f' := WithTree(f, x, t).(words := words);
    forall y: nat | y in ls ensures LayerAt(f', ls, y) {
      assert LayerAt(f, ls, y);
      var n :| LayerIs(f.trees[y], f.words, ls[y], n);
      assert LayerIs(f'.trees[y], f'.words, ls[y], n);
    }
  }

  /** A finished tree is a layer: nothing changes until a slot leads to it. */
  lemma NewLayer(f: Forest, ls: MassLayers.Layers, x: nat, l: MassLayers.Layer, m: map<nat, nat>)
    requires Holds(f, ls) && x !in ls && x in f.trees && LayerIs(f.trees[x], f.words, l, m)
    ensures Holds(f, ls[x := l])
  {
    hide Means, LayerIs;
    var ls' := ls[x := l];
    forall y: nat | y in ls' ensures LayerAt(f, ls', y) {
      if y != x { assert LayerAt(f, ls, y); } else { assert LayerIs(f.trees[x], f.words, ls'[x], m); }
    }
  }

  /** A tree that stands for the same map can take the place of another. */
  lemma TreeSwapped(f: Forest, ls: MassLayers.Layers, x: nat, t: Tree, m: map<nat, nat>)
    requires Holds(f, ls) && x in ls && x in f.trees && Means(f.trees[x], m) && Means(t, m)
    ensures Holds(WithTree(f, x, t), ls)
  {
    hide Means;
    var f' := WithTree(f, x, t);
    forall y: nat | y in ls ensures LayerAt(f', ls, y) {
      assert LayerAt(f, ls, y);
      var n :| LayerIs(f.trees[y], f.words, ls[y], n);
      if y == x { MeansOne(f.trees[x], n, m); }
      assert LayerIs(f'.trees[y], f'.words, ls[y], n);
    }
  }

  lemma SlotSet(t: Tree, t': Tree, words: map<nat, MassLayers.Entry>, l: MassLayers.Layer, n: map<nat, nat>,
        m: map<nat, nat>, k: nat, v: nat)
    requires LayerIs(t, words, l, n) && Means(t, m) && Means(t', m[k := v]) && v in words
    ensures LayerIs(t', words, l[k := words[v]], m[k := v])
  {
    hide Means;
    MeansOne(t, n, m);
  }

  /** Binding a slice in one tree sets the slot of its layer. */
  lemma SlotBound(f: Forest, ls: MassLayers.Layers, x: nat, t: Tree, m: map<nat, nat>, k: nat, v: nat)
    requires Holds(f, ls) && x in ls && x in f.trees && Means(f.trees[x], m) && Means(t, m[k := v]) && v in f.words
    ensures Holds(WithTree(f, x, t), MassLayers.SetSlot(ls, x, k, f.words[v]))
  {
    hide Means, LayerIs;
    var f', ls' := WithTree(f, x, t), MassLayers.SetSlot(ls, x, k, f.words[v]);
    forall y: nat | y in ls' ensures LayerAt(f', ls', y) {
      assert LayerAt(f, ls, y);
      var n :| LayerIs(f.trees[y], f.words, ls[y], n);
      if y == x {
        SlotSet(f.trees[x], t, f.words, ls[x], n, m, k, v);
        assert LayerIs(f'.trees[x], f'.words, ls'[x], m[k := v]);
      } else {
        assert LayerIs(f'.trees[y], f'.words, ls'[y], n);
      }
    }
  }

  /**
   * Setting a slot of a layer is a put into the tree of that layer: every state persisted on the way, in
   * the middle of a split or of its repair, stands for the old map of strings, and the last for the new.
   */
  method PutSlot(tree: Masstree, key: nat, value: nat, ghost f: Forest, ghost ls: MassLayers.Layers, ghost x: nat,
        ghost n: map<nat, nat>, ghost root: nat, ghost m: map<Str, nat>, ghost m': map<Str, nat>)
    requires tree.Valid(n) && value != 0 && value in f.words
    requires Holds(f, ls) && x in ls && x in f.trees && f.trees[x] == tree.Image() && MassLayers.Means(ls, root, m)
    requires MassLayers.Means(MassLayers.SetSlot(ls, x, key, f.words[value]), root, m')
    modifies tree
    ensures tree.Valid(n[key := value]) && old(tree.log) <= tree.log && |old(tree.log)| < |tree.log|
      && tree.log[|tree.log| - 1] == tree.Image()
    ensures forall i :: |old(tree.log)| <= i < |tree.log| - 1 ==> Stands(WithTree(f, x, tree.log[i]), root, m)
    ensures Stands(WithTree(f, x, tree.Image()), root, m')
  {
    hide Denotes, Holds, MassLayers.Means;
    assert Means(tree.Image(), n);
    tree.Put(key, value, n);
    forall i | |old(tree.log)| <= i < |tree.log| - 1 ensures Stands(WithTree(f, x, tree.log[i]), root, m) {
      TreeSwapped(f, ls, x, tree.log[i], n);
    }
    SlotBound(f, ls, x, tree.Image(), n, key, value);
  }
}
