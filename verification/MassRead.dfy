/**
 * A reader of one Masstree leaf among writers, one atomic load or store at a time.  A writer that
 * deletes, overwrites a value in place, or inserts into a slot never used before gives the version
 * word back as it found it; only one that reuses a slot advances it.
 */
module MassRead {
  import opened Common
  import opened MassNode
  import opened MassTree

  /** What the holder of the leaf's lock is about to do. */
  datatype Writer =
    | Free
    | Held
    | InsValue(k: nat, v: nat, over: bool)
    | InsPerm(k: nat, v: nat, over: bool)
    | Cut
    | Tail
    | Done(over: bool)

  datatype Reader =
    | Idle
    | Ver(key: nat)
    | LoadPerm(key: nat, v1: nat)
    | Search(key: nat, v1: nat, perm: Perm, lo: nat, hi: nat)
    | Value(key: nat, v1: nat, perm: Perm, at: nat)
    | Check(key: nat, v1: nat, ans: Option<nat>)
    | Again(key: nat)
    | Answer(key: nat, ans: Option<nat>)

  /**
   * The leaf, the fence of its right sibling, and the fence from which on other nodes may change
   * under other locks: while a split runs, that is still the fence before the split.
   */
  datatype State = State(leaf: Node, fence: Option<nat>, limit: Option<nat>, version: nat, truth: map<nat, nat>,
    w: Writer, r: Reader)

  datatype Step =
    | Lock
    | Insert(k: nat, v: nat)
    | StoreValue
    | StorePerm
    | Remove(k: nat)
    | Overwrite(k: nat, v: nat)
    | Link(x: nat)
    | Truncate
    | PublishRight(k: nat, v: nat)
    | Finish
    | Unlock
    | Elsewhere(k: nat, o: Option<nat>)
    | Begin(key: nat)
    | Read

  function Entries(s: State): seq<Slot> { Listed(s.leaf) }

  predicate Has(s: State, k: nat) { FindIn(Entries(s), k).Some? }

  /** k lies between the leaf's own fence and that of its right sibling. */
  predicate Mine(s: State, k: nat) { s.leaf.low <= k && Below(k, s.fence) }

  /**
   * The locks and the callers' checks.  Keys of other leaves are bound and unbound at any time; in a
   * split the right node is unlocked before the left one.
   */
  predicate Enabled(s: State, e: Step) {
    && Shaped(s.leaf)
    && match e
       case Lock => s.w.Free?
       case Insert(k, v) =>
         (s.w.Held? || s.w.Tail?) && Mine(s, k) && !Has(s, k) && s.leaf.perm.size < WIDTH && v != 0
       case StoreValue => s.w.InsValue?
       case StorePerm => s.w.InsPerm? && s.leaf.perm.size < WIDTH
       case Remove(k) => s.w.Held? && Below(k, s.fence) && Has(s, k)
       case Overwrite(k, v) => s.w.Held? && Below(k, s.fence) && Has(s, k) && v != 0
       case Link(x) => s.w.Held? && s.leaf.low < x && Below(x, s.fence)
       case Truncate => s.w.Cut? && s.fence.Some?
       case PublishRight(k, v) => s.w.Tail? && !Below(k, s.fence) && Below(k, s.limit) && k !in s.truth && v != 0
       case Finish => s.w.Held? || s.w.Tail?
       case Unlock => s.w.Done?
       case Elsewhere(k, _) => k < s.leaf.low || !Below(k, s.limit) || (s.w.Done? && !Below(k, s.fence))
       case Begin(key) => (s.r.Idle? || s.r.Answer?) && s.leaf.low <= key
       case Read => !s.r.Idle? && !s.r.Answer?
  }

  function Bind(m: map<nat, nat>, k: nat, v: Option<nat>): map<nat, nat> {
    if v.Some? then m[k := v.value] else m - {k}
  }

  /** The reader's next step: get on one leaf. */
  function Act(s: State): Reader
    requires Shaped(s.leaf)
  {
    match s.r
    case Ver(key) => if s.version % 4 == 0 then LoadPerm(key, s.version) else s.r
    case LoadPerm(key, v1) => Search(key, v1, s.leaf.perm, 0, s.leaf.perm.size)
    case Search(key, v1, perm, lo, hi) =>
      if lo >= hi || (lo + hi) / 2 >= |perm.slots| || perm.slots[(lo + hi) / 2] >= WIDTH then Check(key, v1, None)
      else
        var m := (lo + hi) / 2;
        var k := s.leaf.entry[perm.slots[m]].key;
        if key < k then Search(key, v1, perm, lo, m)
        else if key == k then Value(key, v1, perm, m)
        else Search(key, v1, perm, m + 1, hi)
    case Value(key, v1, perm, at) =>
      if at >= |perm.slots| || perm.slots[at] >= WIDTH then Check(key, v1, None)
      else
        var v := s.leaf.entry[perm.slots[at]].value;
        Check(key, v1, if v == 0 then None else Some(v))
    case Check(key, v1, ans) => if s.version != v1 then Ver(key) else if ans.Some? then Answer(key, ans) else Again(key)
    case Again(key) => if Below(key, s.fence) then Answer(key, None) else Idle
    case _ => s.r
  }

  function Apply(s: State, e: Step): State
    requires Enabled(s, e)
  {
    match e
    case Lock => s.(version := s.version + 2, w := Held)
    case Insert(k, v) =>
      var p := Back(s.leaf.perm);
      s.(leaf := s.leaf.(entry := s.leaf.entry[p := Slot(k, s.leaf.entry[p].value)]),
        w := InsValue(k, v, s.leaf.entry[p].value != 0))
    case StoreValue =>
      var p := Back(s.leaf.perm);
      s.(leaf := s.leaf.(entry := s.leaf.entry[p := Slot(s.leaf.entry[p].key, s.w.v)]),
        w := InsPerm(s.w.k, s.w.v, s.w.over))
    case StorePerm =>
      var i := Rank(Entries(s), s.w.k);
      s.(leaf := s.leaf.(perm := InsertFromBack(s.leaf.perm, i)), truth := s.truth[s.w.k := s.w.v], w := Done(s.w.over))
    case Remove(k) =>
      s.(leaf := s.leaf.(perm := RemoveToBack(s.leaf.perm, Rank(Entries(s), k))), truth := s.truth - {k},
        w := Done(false))
    case Overwrite(k, v) =>
      var p := s.leaf.perm.slots[Rank(Entries(s), k)];
      assert p in s.leaf.perm.slots;
      s.(leaf := s.leaf.(entry := s.leaf.entry[p := Slot(s.leaf.entry[p].key, v)]), truth := s.truth[k := v],
        w := Done(false))
    case Link(x) => s.(fence := Some(x), w := Cut)
    case Truncate => s.(leaf := s.leaf.(perm := SetSize(s.leaf.perm, Rank(Entries(s), s.fence.value))), w := Tail)
    case PublishRight(k, v) => s.(truth := s.truth[k := v], w := Done(false))
    case Finish => s.(w := Done(false))
    case Unlock => s.(version := if s.w.over then s.version + 2 else if s.version >= 2 then s.version - 2
      else 0, w := Free, limit := s.fence)
    case Elsewhere(k, o) => s.(truth := Bind(s.truth, k, o))
    case Begin(key) => s.(r := Ver(key))
    case Read => s.(r := Act(s))
  }

  /** Any leaf of any tree, new, split off or reopened, that nobody has locked, and no reader yet. */
  ghost predicate Init(s: State) {
    && NodeOk(s.leaf) && Used(s.leaf) && s.limit == s.fence && s.version >= 4 && s.version % 4 == 0
    && (forall j :: 0 <= j < |Entries(s)| ==> Mine(s, Entries(s)[j].key))
    && (forall k: nat :: Mine(s, k) ==> MapAt(s.truth, k) == FindIn(Entries(s), k))
    && s.w == Free && s.r == Idle
  }

  ghost predicate IsRun(states: seq<State>, steps: seq<Step>) {
    && |states| == |steps| + 1 && Init(states[0])
    && forall i :: 0 <= i < |steps| ==> Enabled(states[i], steps[i]) && states[i + 1] == Apply(states[i], steps[i])
  }

  // ---- the leaf under its writers ----

  /** Keys the leaf answers for: those between the fences, and during a split those it still lists. */
  predicate Answers(s: State, k: nat) { s.leaf.low <= k && Below(k, s.limit) && (Below(k, s.fence) || s.w.Cut?) }

  predicate Used(n: Node) { forall j :: 0 <= j < |Listed(n)| ==> Listed(n)[j].value != 0 }

  /** The writer's own pending slot. */
  predicate PendingOk(s: State)
    requires Shaped(s.leaf)
  {
    && (s.w.InsValue? || s.w.InsPerm? ==>
          && s.leaf.perm.size < WIDTH && Mine(s, s.w.k) && !Has(s, s.w.k) && s.w.v != 0
          && SlotAt(s.leaf, WIDTH - 1).key == s.w.k && (s.w.InsPerm? ==> SlotAt(s.leaf, WIDTH - 1).value == s.w.v)
          && (s.w.InsValue? && !s.w.over ==> SlotAt(s.leaf, WIDTH - 1).value == 0))
  }

  ghost predicate LeafInv(s: State) {
    && NodeOk(s.leaf) && Used(s.leaf) && PendingOk(s)
    && s.version >= 4 && (if s.w.Free? then s.version % 4 == 0 else s.version % 4 == 2 && s.version >= 6)
    && (s.fence.None? ==> s.limit.None?) && (s.fence.Some? && s.limit.Some? ==> s.fence.value <= s.limit.value)
    && (s.w.Free? || s.w.Held? ==> s.limit == s.fence)
    && (forall j :: 0 <= j < |Entries(s)| ==> Answers(s, Entries(s)[j].key))
    && (s.w.Cut? ==> s.fence.Some?) && (s.r.Idle? || s.leaf.low <= s.r.key)
    && forall k: nat :: Answers(s, k) ==> MapAt(s.truth, k) == FindIn(Entries(s), k)
  }

  lemma FoundAt(s: seq<Slot>, k: nat)
    requires Ascending(s)
    ensures FindIn(s, k).Some? <==> exists j :: 0 <= j < |s| && s[j].key == k
    ensures FindIn(s, k).Some? ==>
      Rank(s, k) < |s| && s[Rank(s, k)].key == k && FindIn(s, k) == Some(s[Rank(s, k)].value)
  {
    if j :| 0 <= j < |s| && s[j].key == k { FindIs(s, k, j); }
  }

  /** Writing the free slot changes no listed entry. */
  lemma FreeSlot(n: Node, e: Slot)
    requires NodeOk(n) && n.perm.size < WIDTH
    ensures
      var n' := n.(entry := n.entry[Back(n.perm) := e]);
      NodeOk(n') && Listed(n') == Listed(n) && SlotAt(n', WIDTH - 1) == e
    ensures SlotAt(n, WIDTH - 1) == n.entry[Back(n.perm)]
  {
    AssignFree(n, e);
  }

  lemma InsertKeeps(s: State, e: Step)
    requires LeafInv(s) && Enabled(s, e) && (e.Insert? || e.StoreValue?)
    ensures LeafInv(Apply(s, e)) && Entries(Apply(s, e)) == Entries(s)
  {
    hide Listed, FindIn, Rank, Ascending;
    var p := Back(s.leaf.perm);
    FreeSlot(s.leaf, if e.Insert? then Slot(e.k, s.leaf.entry[p].value) else Slot(s.leaf.entry[p].key, s.w.v));
  }

  /** The permutation store lists the pending slot at its place. */
  lemma PublishLists(s: State, e: Step)
    requires LeafInv(s) && Enabled(s, e) && e.StorePerm?
    ensures
      var n', slot := Apply(s, e).leaf, Slot(s.w.k, s.w.v);
      NodeOk(n') && n'.low == s.leaf.low && Listed(n') == Inserted(Entries(s), Rank(Entries(s), s.w.k), slot)
  {
    hide Rank, FindIn;
    var t := Entries(s);
    FoundAt(t, s.w.k);
    Publish(s.leaf, Rank(t, s.w.k));
    InsertSorted(t, SlotAt(s.leaf, WIDTH - 1));
  }

  /** What a writer that is done with the leaf owes it. */
  lemma DoneKeeps(s: State, s': State)
    requires LeafInv(s) && !s.w.Free? && !s.w.Cut? && s'.w.Done?
    requires s' == s.(leaf := s'.leaf, truth := s'.truth, w := s'.w) && s'.leaf.low == s.leaf.low
    requires NodeOk(s'.leaf) && Used(s'.leaf) && forall j :: 0 <= j < |Entries(s')| ==> Answers(s', Entries(s')[j].key)
    requires forall k: nat :: Answers(s', k) ==> MapAt(s'.truth, k) == FindIn(Entries(s'), k)
    ensures LeafInv(s')
  {
    hide Listed, FindIn, NodeOk, Used, Answers;
  }

  lemma PublishKeeps(s: State, e: Step)
    requires LeafInv(s) && Enabled(s, e) && e.StorePerm?
    ensures LeafInv(Apply(s, e))
  {
    hide Rank, FindIn, Listed, Ascending, PermOk;
    var s', t, slot := Apply(s, e), Entries(s), Slot(s.w.k, s.w.v);
    PublishLists(s, e);
    FoundAt(t, slot.key);
    var t' := Entries(s');
    forall q: nat | Answers(s', q) ensures MapAt(s'.truth, q) == FindIn(t', q) {
      FindInserted(t, slot, q);
      assert Answers(s, q);
    }
    forall j: nat | j < |t'| ensures t'[j].value != 0 && Answers(s', t'[j].key) {
      assert t'[j] == if j < Rank(t, s.w.k) then t[j] else if j == Rank(t, s.w.k) then slot else t[j - 1];
    }
    DoneKeeps(s, s');
  }

  /** The permutation store drops the entry. */
  lemma RemoveLists(s: State, e: Step)
    requires LeafInv(s) && Enabled(s, e) && e.Remove?
    ensures
      var i, n' := Rank(Entries(s), e.k), Apply(s, e).leaf;
      && i < |Entries(s)| && Entries(s)[i].key == e.k
      && NodeOk(n') && n'.low == s.leaf.low && Listed(n') == Without(Entries(s), i)
  {
    hide Rank, FindIn;
    var t := Entries(s);
    FoundAt(t, e.k);
    MassNode.Remove(s.leaf, Rank(t, e.k));
    RemovedAscends(t, Rank(t, e.k));
  }

  lemma RemoveKeeps(s: State, e: Step)
    requires LeafInv(s) && Enabled(s, e) && e.Remove?
    ensures LeafInv(Apply(s, e))
  {
    hide Rank, FindIn, Listed, Ascending, PermOk;
    var s', t := Apply(s, e), Entries(s);
    RemoveLists(s, e);
    var i, t' := Rank(t, e.k), Entries(s');
    forall q: nat | Answers(s', q) ensures MapAt(s'.truth, q) == FindIn(t', q) {
      FindRemoved(t, i, q);
      assert Answers(s, q);
    }
    forall j: nat | j < |t'| ensures t'[j].value != 0 && Answers(s', t'[j].key) {
      assert t'[j] == if j < i then t[j] else t[j + 1];
    }
    DoneKeeps(s, s');
  }

  lemma RemovedAscends(s: seq<Slot>, j: nat)
    requires Ascending(s) && j < |s|
    ensures Ascending(Without(s, j))
  {
  }

  lemma FindRemoved(s: seq<Slot>, j: nat, k: nat)
    requires Ascending(s) && j < |s|
    ensures FindIn(Without(s, j), k) == if k == s[j].key then None else FindIn(s, k)
  {
    var s', r := Without(s, j), Rank(s, k);
    RemovedAscends(s, j);
    RankSplits(s, k);
    RankIs(s', k, if r <= j then r else r - 1);
  }

  lemma OverwriteKeeps(s: State, e: Step)
    requires LeafInv(s) && Enabled(s, e) && e.Overwrite?
    ensures LeafInv(Apply(s, e)) && Rank(Entries(s), e.k) < |Entries(s)| && Entries(s)[Rank(Entries(s), e.k)].key == e.k
  {
    hide Rank, FindIn;
    var s', t := Apply(s, e), Entries(s);
    FoundAt(t, e.k);
    var i := Rank(t, e.k);
    AssignValue(s.leaf, i, e.v);
    var t' := Entries(s');
    assert t' == t[i := Slot(e.k, e.v)];
    forall q: nat | Answers(s', q) ensures MapAt(s'.truth, q) == FindIn(t', q) {
      FindChanged(t, i, e.v, q);
      assert Answers(s, q);
    }
  }

  lemma FindChanged(s: seq<Slot>, j: nat, v: nat, k: nat)
    requires Ascending(s) && j < |s|
    ensures FindIn(s[j := Slot(s[j].key, v)], k) == if k == s[j].key then Some(v) else FindIn(s, k)
  {
    var s' := s[j := Slot(s[j].key, v)];
    RankSplits(s, k);
    RankIs(s', k, Rank(s, k));
    if k == s[j].key { FindIs(s, k, j); }
  }

  lemma SplitKeeps(s: State, e: Step)
    requires LeafInv(s) && Enabled(s, e) && (e.Link? || e.Truncate?)
    ensures LeafInv(Apply(s, e))
  {
    var s', t := Apply(s, e), Entries(s);
    if e.Truncate? {
      var x := s.fence.value;
      RankSplits(t, x);
      Shrink(s.leaf, Rank(t, x));
      assert Entries(s') == Front(t, x);
      FindTail(t, x, 0);
      forall q: nat | Answers(s', q) ensures MapAt(s'.truth, q) == FindIn(Entries(s'), q) {
        FindTail(t, x, q);
        assert Answers(s, q);
      }
    } else {
      forall q: nat | Answers(s', q) ensures MapAt(s'.truth, q) == FindIn(Entries(s'), q) { assert Answers(s, q); }
    }
  }

  /** The reader stays with its key or gives up. */
  lemma ActKey(s: State)
    requires Shaped(s.leaf) && !s.r.Idle?
    ensures Act(s).Idle? || Act(s).key == s.r.key
  {
  }

  lemma OtherKeeps(s: State, e: Step)
    requires LeafInv(s) && Enabled(s, e)
      && (e.Lock? || e.PublishRight? || e.Finish? || e.Unlock? || e.Elsewhere? || e.Begin? || e.Read?)
    ensures LeafInv(Apply(s, e)) && Apply(s, e).leaf == s.leaf
  {
    hide Listed, FindIn, Rank, Ascending, Act;
    var s' := Apply(s, e);
    forall q: nat | Answers(s', q) ensures MapAt(s'.truth, q) == FindIn(Entries(s'), q) { assert Answers(s, q); }
    forall j | 0 <= j < |Entries(s')| ensures Answers(s', Entries(s')[j].key) {
      assert Answers(s, Entries(s)[j].key);
    }
    if e.Read? { ActKey(s); }
  }

  /** Every step keeps the leaf in order and right about the keys it answers for. */
  lemma StepKeeps(s: State, e: Step)
    requires LeafInv(s) && Enabled(s, e)
    ensures LeafInv(Apply(s, e))
  {
    hide LeafInv, Apply, Enabled;
    match e {
      case Insert(_, _) => InsertKeeps(s, e);
      case StoreValue => InsertKeeps(s, e);
      case StorePerm => PublishKeeps(s, e);
      case Remove(_) => RemoveKeeps(s, e);
      case Overwrite(_, _) => OverwriteKeeps(s, e);
      case Link(_) => SplitKeeps(s, e);
      case Truncate => SplitKeeps(s, e);
      case _ => OtherKeeps(s, e);
    }
  }

  // ---- the reader ----

  /** What the reader may rely on: every value its key has had so far, and the keys it saw listed. */
  datatype Ghost = Ghost(vals: set<Option<nat>>, keys: seq<nat>)

  predicate Over(w: Writer) { (w.InsValue? || w.InsPerm? || w.Done?) && w.over }

  /** The version word is, or may still become, the one the reader started from. */
  predicate Live(s: State, v1: nat) { s.version == v1 || (s.version == v1 + 2 && !s.w.Free? && !Over(s.w)) }

  predicate VersionOk(s: State, v1: nat) { v1 % 4 == 0 && s.version >= v1 && (s.version == v1 ==> s.w.Free?) }

  predicate Increasing(keys: seq<nat>) { forall i, j :: 0 <= i < j < |keys| ==> keys[i] < keys[j] }

  /** The slots the reader saw listed still hold the keys it saw. */
  predicate Intact(leaf: Node, perm: Perm, keys: seq<nat>) {
    && PermOk(perm) && |leaf.entry| == WIDTH && |keys| == perm.size && Increasing(keys)
    && forall j :: 0 <= j < perm.size ==>
      perm.slots[j] < WIDTH && leaf.entry[perm.slots[j]].key == keys[j] && leaf.entry[perm.slots[j]].value != 0
  }

  /** Whatever the search finds was true at some moment. */
  predicate Sound(s: State, g: Ghost, key: nat, perm: Perm)
    requires Intact(s.leaf, perm, g.keys)
  {
    && (key !in g.keys ==> None in g.vals || !Below(key, s.fence))
    && forall j :: 0 <= j < |g.keys| && g.keys[j] == key ==> Some(s.leaf.entry[perm.slots[j]].value) in g.vals
  }

  predicate Between(keys: seq<nat>, key: nat, lo: nat, hi: nat) {
    lo <= hi <= |keys| && (forall j :: 0 <= j < lo ==> keys[j] < key)
      && (forall j :: hi <= j < |keys| ==> keys[j] > key)
  }

  predicate ReadInv(s: State, g: Ghost) {
    match s.r
    case Idle => true
    case Ver(key) => true
    case LoadPerm(key, v1) => VersionOk(s, v1) && MapAt(s.truth, key) in g.vals
    case Search(key, v1, perm, lo, hi) =>
      && VersionOk(s, v1) && MapAt(s.truth, key) in g.vals
      && (Live(s, v1) ==> Intact(s.leaf, perm, g.keys) && Sound(s, g, key, perm) && Between(g.keys, key, lo, hi))
    case Value(key, v1, perm, at) =>
      && VersionOk(s, v1) && MapAt(s.truth, key) in g.vals
      && (Live(s, v1) ==> Intact(s.leaf, perm, g.keys) && Sound(s, g, key, perm) && at < |g.keys| && g.keys[at] == key)
    case Check(key, v1, ans) =>
      VersionOk(s, v1) && MapAt(s.truth, key) in g.vals
        && (Live(s, v1) ==> ans in g.vals || (ans.None? && !Below(key, s.fence)))
    case Again(key) => None in g.vals || !Below(key, s.fence)
    case Answer(key, ans) => ans in g.vals
  }

  predicate Reading(r: Reader) { !r.Idle? && !r.Ver? }

  function KeyOf(r: Reader): nat { if r.Idle? then 0 else r.key }

  /** The ghost after a step: the key's new value is noted, the listed keys when the permutation is loaded. */
  function Note(s: State, e: Step, g: Ghost): Ghost
    requires Enabled(s, e)
  {
    var s' := Apply(s, e);
    Ghost((if s.r.Ver? then {} else g.vals) + {MapAt(s'.truth, KeyOf(s'.r))},
          if e.Read? && s.r.LoadPerm? then seq(|Entries(s)|, i requires 0 <= i < |Entries(s)| => Entries(s)[i].key)
            else g.keys)
  }

  lemma LiveBefore(s: State, e: Step, v1: nat)
    requires LeafInv(s) && Enabled(s, e) && VersionOk(s, v1) && Live(Apply(s, e), v1)
    ensures Live(s, v1)
  {
    hide Listed, FindIn, Rank, Act;
  }

  lemma VersionStays(s: State, e: Step, v1: nat)
    requires LeafInv(s) && Enabled(s, e) && VersionOk(s, v1)
    ensures VersionOk(Apply(s, e), v1)
  {
    hide Listed, FindIn, Rank, Act;
  }

  /** No writer that gives the version back touches a slot the reader saw listed, but to overwrite its value. */
  lemma IntactStays(s: State, e: Step, v1: nat, g: Ghost, key: nat, perm: Perm)
    requires LeafInv(s) && Enabled(s, e) && VersionOk(s, v1) && Live(s, v1) && Live(Apply(s, e), v1)
    requires Intact(s.leaf, perm, g.keys) && Sound(s, g, key, perm)
    ensures var s' := Apply(s, e); var g' := Ghost(g.vals + {MapAt(s'.truth, key)}, g.keys);
      Intact(s'.leaf, perm, g.keys) && Sound(s', g', key, perm)
  {
    hide FindIn, Rank, Act, NodeOk, Increasing;
    if e.Overwrite? { OverwriteKeeps(s, e); OverwriteBinds(s, e); }
    if s.version == v1 { assert s.w.Free?; } else { assert !s.w.Free? && !Over(s.w); }
  }

  /** Overwriting stores the key's new value and leaves all keys. */
  lemma OverwriteBinds(s: State, e: Step)
    requires LeafInv(s) && Enabled(s, e) && e.Overwrite?
    ensures
      var p := s.leaf.perm.slots[Rank(Entries(s), e.k)];
      p < WIDTH && s.leaf.entry[p].key == e.k && Apply(s, e).leaf.entry == s.leaf.entry[p := Slot(e.k, e.v)]
    ensures Apply(s, e).truth == s.truth[e.k := e.v]
  {
    OverwriteKeeps(s, e);
    hide FindIn, Rank, Act;
    assert s.leaf.perm.slots[Rank(Entries(s), e.k)] in s.leaf.perm.slots;
  }

  lemma FenceFalls(s: State, e: Step, k: nat)
    requires LeafInv(s) && Enabled(s, e) && !Below(k, s.fence)
    ensures !Below(k, Apply(s, e).fence)
  {
    hide Listed, FindIn, Rank, Act;
  }

  lemma ReaderOnly(s: State, e: Step)
    requires Enabled(s, e)
    ensures Apply(s, e).r == if e.Read? then Act(s) else if e.Begin? then Ver(e.key) else s.r
    ensures e.Read? || e.Begin? ==> Apply(s, e) == s.(r := Apply(s, e).r)
  {
    hide Listed, FindIn, Rank, Act;
  }

  /** A writer's step keeps what the reader relies on. */
  lemma WriterKeeps(s: State, e: Step, g: Ghost)
    requires LeafInv(s) && Enabled(s, e) && ReadInv(s, g) && !e.Read? && !e.Begin?
    ensures ReadInv(Apply(s, e), Note(s, e, g))
  {
    ReaderOnly(s, e);
    hide Apply, Act, LeafInv, Listed, Enabled;
    var s', g' := Apply(s, e), Note(s, e, g);
    if Reading(s.r) && !s.r.Again? && !s.r.Answer? {
      VersionStays(s, e, s.r.v1);
      if Live(s', s.r.v1) {
        LiveBefore(s, e, s.r.v1);
        if s.r.Search? || s.r.Value? { IntactStays(s, e, s.r.v1, g, s.r.key, s.r.perm); }
      }
    }
    if Reading(s.r) && !Below(s.r.key, s.fence) { FenceFalls(s, e, s.r.key); }
  }

  function KeysOf(t: seq<Slot>): seq<nat> { seq(|t|, i requires 0 <= i < |t| => t[i].key) }

  lemma ListedIntact(n: Node)
    requires NodeOk(n) && Used(n)
    ensures Intact(n, n.perm, KeysOf(Listed(n)))
  {
    forall j | 0 <= j < n.perm.size ensures n.perm.slots[j] < WIDTH && n.entry[n.perm.slots[j]] == Listed(n)[j] {
      assert n.perm.slots[j] in n.perm.slots;
    }
  }

  /** What the permutation lists of the key is what the key is bound to. */
  lemma ListedSound(s: State, key: nat, g: Ghost)
    requires LeafInv(s) && g.keys == KeysOf(Entries(s)) && Intact(s.leaf, s.leaf.perm, g.keys)
      && MapAt(s.truth, key) in g.vals && s.leaf.low <= key
    ensures Sound(s, g, key, s.leaf.perm)
  {
    hide Rank, FindIn, Intact;
    var t := Entries(s);
    FoundAt(t, key);
    forall j | 0 <= j < |t| && t[j].key == key ensures Some(t[j].value) in g.vals {
      assert Answers(s, key);
      LookupAt(t, j);
    }
    if key !in g.keys && Below(key, s.fence) {
      assert Answers(s, key);
      assert FindIn(t, key).None? by { forall j | 0 <= j < |t| ensures t[j].key != key { assert g.keys[j] in g.keys; } }
    }
  }

  lemma AllBetween(keys: seq<nat>, key: nat)
    ensures Between(keys, key, 0, |keys|)
  {
  }

  lemma LoadKeeps(s: State, e: Step, g: Ghost)
    requires LeafInv(s) && Enabled(s, e) && ReadInv(s, g) && e.Read? && s.r.LoadPerm?
    ensures ReadInv(Apply(s, e), Note(s, e, g))
  {
    ReaderOnly(s, e);
    var s', g', key := Apply(s, e), Note(s, e, g), s.r.key;
    assert g'.keys == KeysOf(Entries(s)) && MapAt(s.truth, key) in g'.vals;
    hide Note, Apply, Sound, Listed, Between, LeafInv, Used;
    LeafFacts(s);
    ListedIntact(s.leaf);
    ListedSound(s, key, g');
    AllBetween(g'.keys, key);
  }

  lemma LookupAt(t: seq<Slot>, j: nat)
    requires Ascending(t) && j < |t|
    ensures FindIn(t, t[j].key) == Some(t[j].value)
  {
    FindIs(t, t[j].key, j);
  }

  /** The reader's own steps that do not look at the leaf's slots. */
  lemma ReaderKeeps(s: State, e: Step, g: Ghost)
    requires LeafInv(s) && Enabled(s, e) && ReadInv(s, g)
      && (e.Begin? || (e.Read? && !s.r.LoadPerm? && !s.r.Search? && !s.r.Value?))
    ensures ReadInv(Apply(s, e), Note(s, e, g))
  {
    ReaderOnly(s, e);
    VersionFree(s);
    hide Apply, Listed, Entries, LeafInv, Intact;
    var s', g' := Apply(s, e), Note(s, e, g);
    assert s'.version == s.version && s'.w == s.w && s'.leaf == s.leaf && s'.fence == s.fence && s'.truth == s.truth;
  }

  lemma LeafFacts(s: State)
    requires LeafInv(s)
    ensures NodeOk(s.leaf) && Used(s.leaf) && (s.r.Idle? || s.leaf.low <= s.r.key)
  {
  }

  lemma VersionFree(s: State)
    requires LeafInv(s)
    ensures s.version % 4 == 0 ==> s.w.Free?
  {
    hide Listed, FindIn, Rank;
  }

  /** The step of the search, and the load of the value it found. */
  lemma SearchKeeps(s: State, e: Step, g: Ghost)
    requires LeafInv(s) && Enabled(s, e) && ReadInv(s, g) && e.Read? && (s.r.Search? || s.r.Value?)
    ensures ReadInv(Apply(s, e), Note(s, e, g))
  {
    ReaderOnly(s, e);
    hide Apply, LeafInv, Act;
    var g' := Note(s, e, g);
    assert g'.keys == g.keys && g.vals <= g'.vals && (KeyOf(Act(s)) == s.r.key ==> MapAt(s.truth, s.r.key) in g'.vals);
    hide Note, ReadInv;
    SearchAct(s, g, g');
  }

  lemma SearchAct(s: State, g: Ghost, g': Ghost)
    requires Shaped(s.leaf) && ReadInv(s, g) && (s.r.Search? || s.r.Value?)
    requires g'.keys == g.keys && g.vals <= g'.vals
    ensures KeyOf(Act(s)) == s.r.key && ReadInv(s.(r := Act(s)), g')
  {
    hide Increasing, Between;
    var r := s.r;
    if Live(s, r.v1) && r.Search? { Narrow(g.keys, r.key, r.lo, r.hi); }
  }

  lemma Narrow(keys: seq<nat>, key: nat, lo: nat, hi: nat)
    requires Increasing(keys) && Between(keys, key, lo, hi)
    ensures lo <= hi <= |keys| && (lo == hi ==> key !in keys)
    ensures lo < hi ==>
      var m := (lo + hi) / 2;
      && (key < keys[m] ==> Between(keys, key, lo, m))
      && (key > keys[m] ==> Between(keys, key, m + 1, hi))
  {
  }

  lemma ReadKeeps(s: State, e: Step, g: Ghost)
    requires LeafInv(s) && Enabled(s, e) && ReadInv(s, g)
    ensures ReadInv(Apply(s, e), Note(s, e, g))
  {
    hide ReadInv, Note, Apply;
    if e.Read? && s.r.LoadPerm? { LoadKeeps(s, e, g); }
    else if e.Read? && (s.r.Search? || s.r.Value?) { SearchKeeps(s, e, g); }
    else if e.Read? || e.Begin? { ReaderKeeps(s, e, g); }
    else { WriterKeeps(s, e, g); }
  }

  // ---- runs ----

  lemma InitHolds(s: State)
    requires Init(s)
    ensures LeafInv(s)
  {
    hide Listed, FindIn, Ascending;
  }

  /** Every leaf of every tree, unless a crash left its split half done, is where a run may start. */
  lemma EveryLeafStarts(t: Tree, lv: seq<seq<nat>>, m: map<nat, nat>, i: nat, version: nat)
    requires Denotes(t, lv, m) && i < |lv[0]| && In(t.nodes, lv[0]) && CleanAt(View(t.nodes, lv[0]), i + 1)
    requires version >= 4 && version % 4 == 0 && forall k: nat :: k in m ==> m[k] != 0
    ensures
      var fence := FenceOf(View(t.nodes, lv[0]), i);
      Init(State(t.nodes[lv[0][i]], fence, fence, version, m, Free, Idle))
  {
    hide FindIn, Listed, Cover, RowOk;
    assert LevelOk(t, lv[0], 0);
    var ns := View(t.nodes, lv[0]);
    var n, fence := ns[i], FenceOf(ns, i);
    RowFacts(ns, i);
    forall k: nat | n.low <= k && Below(k, fence) ensures MapAt(m, k) == FindIn(Listed(n), k) {
      CoverIs(ns, 0, k, 0, i);
      assert Lookup(ns, k) == MapAt(m, k);
    }
    forall j | 0 <= j < |Listed(n)| ensures Listed(n)[j].value != 0 {
      LookupAt(Listed(n), j);
      assert MapAt(m, Listed(n)[j].key) == Some(Listed(n)[j].value);
    }
  }

  lemma RowFacts(ns: seq<Node>, i: nat)
    requires RowOk(ns, 0) && i < |ns| && CleanAt(ns, i + 1)
    ensures NodeOk(ns[i]) && ns[0].low == 0
    ensures forall j :: 0 <= j < |Listed(ns[i])| ==>
      ns[i].low <= Listed(ns[i])[j].key && Below(Listed(ns[i])[j].key, FenceOf(ns, i))
  {
    assert NodeAt(ns[i], 0);
  }

  lemma {:induction false} LeafHolds(states: seq<State>, steps: seq<Step>, i: nat)
    requires IsRun(states, steps) && i < |states|
    ensures LeafInv(states[i])
  {
    if i == 0 {
      InitHolds(states[0]);
    } else {
      LeafHolds(states, steps, i - 1);
      StepKeeps(states[i - 1], steps[i - 1]);
    }
  }

  /** The values the reader's key had in states a + 1 .. i. */
  ghost predicate SeenIn(states: seq<State>, a: nat, i: nat, key: nat, v: Option<nat>) {
    exists c :: a < c <= i < |states| && MapAt(states[c].truth, key) == v
  }

  /** From the load of the version word at step a on, without a restart, what is noted was true. */
  lemma {:induction false} SeenHolds(states: seq<State>, steps: seq<Step>, a: nat, i: nat, key: nat) returns (g: Ghost)
    requires IsRun(states, steps) && a < i < |states|
    requires steps[a].Read? && states[a].r == Ver(key) && (forall c :: a < c <= i ==> Reading(states[c].r))
    ensures ReadInv(states[i], g) && KeyOf(states[i].r) == key
    ensures forall v :: v in g.vals ==> SeenIn(states, a, i, key, v)
    decreases i
  {
    hide LeafInv, Act, Listed, Apply, Enabled;
    LeafHolds(states, steps, i - 1);
    var s, e := states[i - 1], steps[i - 1];
    assert Reading(states[i].r);
    ReaderOnly(s, e);
    if i == a + 1 {
      g := Note(s, e, Ghost({}, []));
      ReadKeeps(s, e, Ghost({}, []));
      KeyStays(s, e);
      assert MapAt(states[i].truth, key) == MapAt(states[i].truth, key);
      assert forall v :: v in g.vals ==> SeenIn(states, a, i, key, v);
    } else {
      var g0 := SeenHolds(states, steps, a, i - 1, key);
      g := Note(s, e, g0);
      ReadKeeps(s, e, g0);
      KeyStays(s, e);
      hide ReadInv;
      forall v | v in g.vals ensures SeenIn(states, a, i, key, v) {
        if v in g0.vals { var c :| a < c <= i - 1 < |states| && MapAt(states[c].truth, key) == v; }
      }
    }
  }

  lemma KeyStays(s: State, e: Step)
    requires Enabled(s, e) && (s.r.Ver? || Reading(s.r)) && Reading(Apply(s, e).r)
    ensures Apply(s, e).r.key == s.r.key
  {
    ReaderOnly(s, e);
    hide Apply, Listed;
  }

  // ---- what the writers have been asked to do ----

  /** The pair of the last insert begun. */
  function Pending(steps: seq<Step>): Slot {
    if steps == [] then Slot(0, 0)
    else if steps[|steps| - 1].Insert? then Slot(steps[|steps| - 1].k, steps[|steps| - 1].v)
    else Pending(steps[..|steps| - 1])
  }

  /** What the steps, as they were asked for, make of a map. */
  function TruthAfter(m: map<nat, nat>, steps: seq<Step>): map<nat, nat> {
    if steps == [] then m
    else
      var before := TruthAfter(m, steps[..|steps| - 1]);
      match steps[|steps| - 1]
      case StorePerm => before[Pending(steps).key := Pending(steps).value]
      case Remove(k) => before - {k}
      case Overwrite(k, v) => before[k := v]
      case PublishRight(k, v) => before[k := v]
      case Elsewhere(k, o) => Bind(before, k, o)
      case _ => before
  }

  predicate Asked(s: State, e: Slot) { s.w.InsValue? || s.w.InsPerm? ==> e == Slot(s.w.k, s.w.v) }

  lemma TruthStep(s: State, e: Step)
    requires Enabled(s, e)
    ensures Apply(s, e).truth ==
      match e
      case StorePerm => s.truth[s.w.k := s.w.v]
      case Remove(k) => s.truth - {k}
      case Overwrite(k, v) => s.truth[k := v]
      case PublishRight(k, v) => s.truth[k := v]
      case Elsewhere(k, o) => Bind(s.truth, k, o)
      case _ => s.truth
    ensures forall was :: Asked(s, was) ==> Asked(Apply(s, e), if e.Insert? then Slot(e.k, e.v) else was)
  {
    hide Listed, FindIn, Rank, Act;
  }

  /** In every state the map is what the writers' steps have been asked to make it. */
  lemma {:induction false} TruthFollows(states: seq<State>, steps: seq<Step>, i: nat)
    requires IsRun(states, steps) && i < |states|
    ensures states[i].truth == TruthAfter(states[0].truth, steps[..i]) && Asked(states[i], Pending(steps[..i]))
  {
    hide Apply, Asked, Bind;
    if i == 0 {
      NoneAsked(states[0]);
    } else {
      TruthFollows(states, steps, i - 1);
      assert steps[..i][..i - 1] == steps[..i - 1] && steps[..i][i - 1] == steps[i - 1];
      TruthStep(states[i - 1], steps[i - 1]);
      if steps[i - 1].StorePerm? { StoresAsked(states[i - 1], steps[i - 1], Pending(steps[..i - 1])); }
    }
  }

  lemma NoneAsked(s: State)
    requires Init(s)
    ensures Asked(s, Slot(0, 0))
  {
  }

  lemma StoresAsked(s: State, e: Step, was: Slot)
    requires Enabled(s, e) && e.StorePerm? && Asked(s, was)
    ensures s.w.InsPerm? && was == Slot(s.w.k, s.w.v)
  {
  }

  /** And the leaf agrees with it on every key it answers for. */
  lemma LeafFollows(states: seq<State>, steps: seq<Step>, i: nat, k: nat)
    requires IsRun(states, steps) && i < |states| && Answers(states[i], k)
    ensures FindIn(Entries(states[i]), k) == MapAt(TruthAfter(states[0].truth, steps[..i]), k)
  {
    LeafHolds(states, steps, i);
    TruthFollows(states, steps, i);
  }

  /**
   * If the version word at the end equals the one at the start, the answer was true of the key at
   * some moment in between: a is the step that loads the version word, b the state that answers.
   */
  lemma ValidatedRead(states: seq<State>, steps: seq<Step>, a: nat, b: nat, key: nat, ans: Option<nat>)
    requires IsRun(states, steps) && a < b < |states|
    requires steps[a].Read? && states[a].r == Ver(key) && (forall c :: a < c <= b ==> Reading(states[c].r))
    requires states[b].r == Answer(key, ans)
    ensures exists c ::
      && a < c <= b && MapAt(states[c].truth, key) == ans
      && states[c].truth == TruthAfter(states[0].truth, steps[..c])
  {
    var g := SeenHolds(states, steps, a, b, key);
    assert SeenIn(states, a, b, key, ans);
    var c :| a < c <= b && MapAt(states[c].truth, key) == ans;
    TruthFollows(states, steps, c);
  }

  /** The reader begins nothing between steps j and i: they belong to the same get. */
  ghost predicate SameGet(steps: seq<Step>, j: nat, i: nat) {
    j < i <= |steps| && forall l :: j < l < i ==> !steps[l].Begin?
  }

  /** A get stays with its key until it answers or goes on to the next leaf. */
  lemma {:induction false} GetKeepsKey(states: seq<State>, steps: seq<Step>, j: nat, i: nat, key: nat)
    requires IsRun(states, steps) && SameGet(steps, j, i) && steps[j] == Begin(key)
    ensures states[i].r.Idle? || states[i].r.key == key
    decreases i
  {
    hide Apply, Act, Listed, Enabled;
    ReaderOnly(states[i - 1], steps[i - 1]);
    if i > j + 1 {
      GetKeepsKey(states, steps, j, i - 1, key);
      if steps[i - 1].Read? { ReadsOn(states[i - 1], steps[i - 1]); ActKey(states[i - 1]); }
    }
  }

  lemma ReadsOn(s: State, e: Step)
    requires Enabled(s, e) && e.Read?
    ensures Shaped(s.leaf) && !s.r.Idle?
  {
  }

  /** A reader past the load of the version word has loaded it in the same get, and has not started over since. */
  lemma {:induction false} VersionLoadedAt(states: seq<State>, steps: seq<Step>, j: nat, i: nat, key: nat)
        returns (a: nat)
    requires IsRun(states, steps) && SameGet(steps, j, i) && steps[j] == Begin(key) && Reading(states[i].r)
    ensures j < a < i && steps[a].Read? && states[a].r == Ver(key) && forall c :: a < c <= i ==> Reading(states[c].r)
    decreases i
  {
    hide Apply, Act, Listed, Enabled;
    var s, e := states[i - 1], steps[i - 1];
    ReaderOnly(s, e);
    assert i > j + 1;
    GetKeepsKey(states, steps, j, i - 1, key);
    if Reading(s.r) {
      a := VersionLoadedAt(states, steps, j, i - 1, key);
    } else {
      assert e.Read?;
      ReadsOn(s, e);
      a := i - 1;
    }
  }

  /** What get answers for the key it was asked for was true of that key at some moment of the call. */
  lemma GetIsTrue(states: seq<State>, steps: seq<Step>, j: nat, b: nat, key: nat, k: nat, ans: Option<nat>)
    requires IsRun(states, steps) && SameGet(steps, j, b) && steps[j] == Begin(key) && states[b].r == Answer(k, ans)
    ensures k == key && exists c :: j < c <= b && MapAt(TruthAfter(states[0].truth, steps[..c]), key) == ans
  {
    GetKeepsKey(states, steps, j, b, key);
    var a := VersionLoadedAt(states, steps, j, b, key);
    ValidatedRead(states, steps, a, b, key, ans);
    var c :| a < c <= b && MapAt(states[c].truth, key) == ans
      && states[c].truth == TruthAfter(states[0].truth, steps[..c]);
  }
}
