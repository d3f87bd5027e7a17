/** The resize machine keeps its invariant, and what holds when the table pointer is swapped. */
module ClhtProof {
  import opened Common
  import opened ClhtHash
  import opened ClhtTable
  import opened ClhtResize

  // ---- chains ----

  lemma {:induction false} HoleAdds(c: seq<Slot>, j: nat, q: nat)
    requires j < |c| && c[j].key == 0 && q != 0
    ensures Lookup(c[..j + 1], q) == Lookup(c[..j], q)
  {
    assert c[..j + 1] == c[..j] + [c[j]];
    LookupAppend(c[..j], [c[j]], q);
  }

  lemma SlotAdds(c: seq<Slot>, j: nat, q: nat)
    requires Distinct(c) && j < |c| && c[j].key != 0 && q != 0
    ensures Lookup(c[..j], c[j].key).None?
    ensures Lookup(c[..j + 1], q) == if q == c[j].key then Some(c[j].val) else Lookup(c[..j], q)
  {
    assert c[..j + 1] == c[..j] + [c[j]];
    LookupNone(c[..j], c[j].key);
    LookupAppend(c[..j], [c[j]], q);
  }

  /** Putting a key the chain lacks into its first hole. */
  lemma PutFirst(c: seq<Slot>, e: Slot, q: nat)
    requires Distinct(c) && e.key != 0 && q != 0 && Lookup(c, e.key).None?
    ensures
      var c' := PutAt(c, FirstHole(c), e);
      Distinct(c') && Lookup(c', q) == if q == e.key then Some(e.val) else Lookup(c, q)
  {
    if FirstHole(c) < |c| {
      LookupFilled(c, FirstHole(c), e.key, e.val, q);
    } else {
      LookupNewBucket(c, e.key, e.val, q);
    }
  }

  lemma PutOk(n: nat, b: nat, c: seq<Slot>, e: Slot)
    requires ChainOk(n, b, c) && e.key != 0 && Bin(n, e.key) == b && Lookup(c, e.key).None?
    ensures ChainOk(n, b, PutAt(c, FirstHole(c), e))
  {
    PutFirst(c, e, e.key);
  }

  lemma {:induction false} IndexFinds(c: seq<Slot>, k: nat)
    requires Lookup(c, k).Some?
    ensures IndexOf(c, k) < |c|
  {
    if c[0].key != k { IndexFinds(c[1..], k); }
  }

  // ---- threads that update the old table ----

  lemma UpdateKeeps(s: State, b: nat, c: seq<Slot>)
    requires Inv(s) && b < s.n && LockOf(s, b).Update? && ChainOk(s.n, b, c)
    ensures Inv(s.(table := s.table[b := c]))
  {
    hide Lookup, Bin, Distinct, FirstHole;
    var s' := s.(table := s.table[b := c]);
    assert !Claimed(s.rz, s.hp, b);
    forall q: nat | q != b ensures OldChain(s', q) == OldChain(s, q) && Copied(s', q) == Copied(s, q) { }
    assert Copied(s', b) == [] && Copied(s, b) == [];
  }

  lemma PutKeeps(s: State, e: Step)
    requires Inv(s) && Enabled(s, e) && (e.Put? || e.Remove?)
    ensures Inv(Apply(s, e))
  {
    var b := Bin(s.n, e.k);
    BinInside(s.n, e.k);
    var c := OldChain(s, b);
    assert ChainOk(s.n, b, c);
    if e.Put? {
      PutOk(s.n, b, c, Slot(e.k, e.v));
      UpdateKeeps(s, b, PutAt(c, FirstHole(c), Slot(e.k, e.v)));
    } else {
      IndexFinds(c, e.k);
      var i := IndexOf(c, e.k);
      LookupErased(c, i, e.k);
      UpdateKeeps(s, b, c[i := Slot(0, c[i].val)]);
    }
  }

  lemma LockKeeps(s: State, e: Step)
    requires Inv(s) && Enabled(s, e) && (e.Acquire? || e.Release? || e.Test? || e.SeeDone? || e.Swap? || e.StartHelp?)
    ensures Inv(Apply(s, e))
  {
    hide Lookup, Bin, Distinct, FirstHole, ChainOk, NewOk, TableOk;
    var s' := Apply(s, e);
    forall b: nat | b < s.n ensures Claimed(s'.rz, s'.hp, b) <==> Claimed(s.rz, s.hp, b) { }
    forall b: nat | b < s.n ensures Copied(s', b) == Copied(s, b) { }
    NewStays(s, s');
  }

  // ---- the copiers ----

  /** The new table is right as long as the copied entries are. */
  lemma NewStays(s: State, s': State)
    requires NewOk(s) && s.n > 0 && s'.n == s.n && s'.m == s.m && s'.neu == s.neu
    requires forall b: nat, k: nat :: b < s.n && k != 0 ==> Lookup(Copied(s', b), k) == Lookup(Copied(s, b), k)
    ensures NewOk(s')
  {
    hide Lookup, Bin, Copied, ChainOk;
    forall k: nat | k != 0 ensures Lookup(NewChain(s', Bin(s.m, k)), k) == Lookup(Copied(s', Bin(s.n, k)), k) {
      BinInside(s.n, k);
    }
  }

  /** Claiming a bucket, or finding it claimed. */
  lemma ClaimKeeps(s: State, e: Step)
    requires Inv(s) && Enabled(s, e) && ((e.RunResizer? && s.rz.Claim?) || (e.RunHelper? && s.hp.Claim?))
    ensures Inv(Apply(s, e))
  {
    hide Lookup, Bin, Distinct, FirstHole, ChainOk, NewOk;
    var s' := Apply(s, e);
    var b := if e.RunResizer? then s.rz.b else s.hp.b;
    if !LockOf(s, b).Update? {
      assert LockOf(s, b).Resize? <==> Claimed(s.rz, s.hp, b);
      forall q: nat | q < s.n ensures LockOf(s', q).Resize? <==> Claimed(s'.rz, s'.hp, q) {
        assert LockOf(s, q).Resize? <==> Claimed(s.rz, s.hp, q);
      }
      forall q: nat | q < s.n ensures Copied(s', q) == Copied(s, q) {
        assert LockOf(s, q).Resize? <==> Claimed(s.rz, s.hp, q);
      }
      NewStays(s, s');
    } else {
      assert s' == s;
    }
  }

  /** Moving past an empty entry, to the next bucket, or to the store of an entry. */
  lemma CopyKeeps(s: State, e: Step)
    requires Inv(s) && Enabled(s, e) && ((e.RunResizer? && s.rz.Copy?) || (e.RunHelper? && s.hp.Copy?))
    ensures Inv(Apply(s, e))
  {
    hide Lookup, Bin, Distinct, FirstHole, ChainOk, NewOk;
    var s' := Apply(s, e);
    var c := if e.RunResizer? then s.rz else s.hp;
    forall q: nat | q < s.n ensures Claimed(s'.rz, s'.hp, q) <==> Claimed(s.rz, s.hp, q) { }
    forall q: nat, k: nat | q < s.n && k != 0 ensures Lookup(Copied(s', q), k) == Lookup(Copied(s, q), k) {
      if q == c.b && c.j < |OldChain(s, q)| && OldChain(s, q)[c.j].key == 0 {
        HoleAdds(OldChain(s, q), c.j, k);
      } else {
        assert Copied(s', q) == Copied(s, q);
      }
    }
    NewStays(s, s');
  }

  /** Where the entry a copier is storing goes. */
  function Target(s: State, c: Copier): nat
    requires c.Write? && c.j < |OldChain(s, c.b)|
  {
    Bin(s.m, OldChain(s, c.b)[c.j].key)
  }

  /** On growth two copiers never touch the same chain of the new table. */
  lemma TargetsApart(s: State)
    requires Inv(s) && s.rz.Write? && s.hp.Write?
    ensures Target(s, s.rz) != Target(s, s.hp)
  {
    var k, l := OldChain(s, s.rz.b)[s.rz.j].key, OldChain(s, s.hp.b)[s.hp.j].key;
    assert ChainOk(s.n, s.rz.b, OldChain(s, s.rz.b)) && ChainOk(s.n, s.hp.b, OldChain(s, s.hp.b));
    BinRefines(s.n, s.m, k);
    BinRefines(s.n, s.m, l);
  }

  lemma WriteKeeps(s: State, e: Step)
    requires Inv(s) && Enabled(s, e) && ((e.RunResizer? && s.rz.Write?) || (e.RunHelper? && s.hp.Write?))
    ensures Inv(Apply(s, e))
  {
    hide Lookup, Bin, Distinct, FirstHole, ChainOk, NewOk, PutAt, TableOk;
    if s.rz.Write? && s.hp.Write? { TargetsApart(s); }
    var s' := Apply(s, e);
    var c := if e.RunResizer? then s.rz else s.hp;
    WriteNew(s, s', c);
    forall q: nat | q < s.n ensures Claimed(s'.rz, s'.hp, q) <==> Claimed(s.rz, s.hp, q) { }
  }

  lemma WriteNew(s: State, s': State, c: Copier)
    requires Inv(s) && c.Write?
      && ((c == s.rz && s' == Effect(s, c).(rz := Copy(c.b, c.j + 1)))
        || (c == s.hp && s' == Effect(s, c).(hp := Copy(c.b, c.j + 1))))
    ensures NewOk(s')
  {
    hide Lookup, Distinct, FirstHole, PutAt, Bin;
    var b, e := c.b, OldChain(s, c.b)[c.j];
    var t := Bin(s.m, e.key);
    BinInside(s.m, e.key);
    OldEntry(s, b, c.j);
    WriteCopied(s, s', c);
    SlotAdds(OldChain(s, b), c.j, e.key);
    assert Lookup(NewChain(s, t), e.key).None?;
    NewDistinct(s, t);
    PutOk(s.m, t, NewChain(s, t), e);
    hide ChainOk, Copied, Claimed, Inv;
    forall k: nat | k != 0 ensures Lookup(NewChain(s', Bin(s.m, k)), k) == Lookup(Copied(s', Bin(s.n, k)), k) {
      WriteLookup(s, s', c, k);
    }
  }

  lemma OldEntry(s: State, b: nat, j: nat)
    requires Inv(s) && b < s.n && j < |OldChain(s, b)| && OldChain(s, b)[j].key != 0
    ensures ChainOk(s.n, b, OldChain(s, b)) && Distinct(OldChain(s, b)) && Bin(s.n, OldChain(s, b)[j].key) == b
  {
    assert ChainOk(s.n, b, OldChain(s, b));
  }

  lemma NewDistinct(s: State, t: nat)
    requires NewOk(s) && t < s.m
    ensures ChainOk(s.m, t, NewChain(s, t)) && Distinct(NewChain(s, t))
  {
    assert ChainOk(s.m, t, NewChain(s, t));
  }

  lemma WriteCopied(s: State, s': State, c: Copier)
    requires Inv(s) && c.Write?
      && ((c == s.rz && s' == Effect(s, c).(rz := Copy(c.b, c.j + 1)))
        || (c == s.hp && s' == Effect(s, c).(hp := Copy(c.b, c.j + 1))))
    ensures Copied(s, c.b) == OldChain(s, c.b)[..c.j] && Copied(s', c.b) == OldChain(s, c.b)[..c.j + 1]
    ensures forall q: nat :: q != c.b && q < s.n ==> Copied(s', q) == Copied(s, q)
  {
    hide NewOk, TableOk, LocksOk, PutAt, Bin, FirstHole;
  }

  lemma WriteLookup(s: State, s': State, c: Copier, k: nat)
    requires s.n > 0 && NewOk(s) && c.Write? && k != 0 && c.j < |OldChain(s, c.b)| && c.b < s.n
    requires var e := OldChain(s, c.b)[c.j];
      && e.key != 0 && Distinct(OldChain(s, c.b)) && Bin(s.n, e.key) == c.b && Distinct(NewChain(s, Bin(s.m, e.key)))
        && Lookup(NewChain(s, Bin(s.m, e.key)), e.key).None?
      && c.i == FirstHole(NewChain(s, Bin(s.m, e.key)))
      && s'.neu == s.neu[Bin(s.m, e.key) := PutAt(NewChain(s, Bin(s.m, e.key)), c.i, e)]
    requires s'.n == s.n && s'.m == s.m && (forall q: nat :: q != c.b && q < s.n ==> Copied(s', q) == Copied(s, q))
    requires Copied(s, c.b) == OldChain(s, c.b)[..c.j] && Copied(s', c.b) == OldChain(s, c.b)[..c.j + 1]
    ensures Lookup(NewChain(s', Bin(s.m, k)), k) == Lookup(Copied(s', Bin(s.n, k)), k)
  {
    hide Distinct, FirstHole, ChainOk, PutAt, Bin, Copied, Lookup;
    var e := OldChain(s, c.b)[c.j];
    BinInside(s.n, k);
    PutFirst(NewChain(s, Bin(s.m, e.key)), e, k);
    SlotAdds(OldChain(s, c.b), c.j, k);
  }

  // ---- runs ----

  lemma StepKeeps(s: State, e: Step)
    requires Inv(s) && Enabled(s, e)
    ensures Inv(Apply(s, e))
  {
    hide Inv, Apply;
    match e {
      case Put(_, _) => PutKeeps(s, e);
      case Remove(_) => PutKeeps(s, e);
      case RunResizer =>
        if s.rz.Claim? {
          ClaimKeeps(s, e);
        } else if s.rz.Copy? {
          CopyKeeps(s, e);
        } else if s.rz.Write? {
          WriteKeeps(s, e);
        } else {
          ResizerOn(s);
        }
      case RunHelper =>
        if s.hp.Claim? { ClaimKeeps(s, e); } else if s.hp.Copy? { CopyKeeps(s, e); } else { WriteKeeps(s, e); }
      case _ => LockKeeps(s, e);
    }
  }

  lemma ResizerOn(s: State)
    requires Inv(s)
    ensures !s.rz.Off?
  {
  }

  lemma InitHolds(s: State)
    requires Init(s)
    ensures Inv(s)
  {
    hide Bin;
    forall k: nat | k != 0 ensures Lookup(NewChain(s, Bin(s.m, k)), k) == Lookup(Copied(s, Bin(s.n, k)), k) {
      BinInside(s.m, k);
      BinInside(s.n, k);
      LookupNone(EMPTY_BUCKET, k);
    }
  }

  lemma {:induction false} RunInv(states: seq<State>, steps: seq<Step>, i: nat)
    requires IsRun(states, steps) && i < |states|
    ensures Inv(states[i])
  {
    if i == 0 { InitHolds(states[0]); } else { RunInv(states, steps, i - 1); StepKeeps(states[i - 1], steps[i - 1]); }
  }

  /** Whenever the table pointer is about to be, or has been, swapped, the new table holds exactly the old map. */
  lemma SwapIsExact(states: seq<State>, steps: seq<Step>, i: nat)
    requires IsRun(states, steps) && i < |states| && (states[i].phase.Go? || states[i].phase.Swapped?)
    ensures TableOk(Table(states[i].m, states[i].neu)) && TableOk(Table(states[i].n, states[i].table))
    ensures forall k: nat :: k != 0 ==>
      At(Table(states[i].m, states[i].neu), k) == At(Table(states[i].n, states[i].table), k)
    ensures forall b: nat :: b < states[i].n ==> LockOf(states[i], b).Resize?
  {
    RunInv(states, steps, i);
    var s := states[i];
    hide Lookup, Bin, Distinct;
    forall k: nat | k != 0 ensures At(Table(s.m, s.neu), k) == At(Table(s.n, s.table), k) {
      BinInside(s.m, k);
      BinInside(s.n, k);
      var c := OldChain(s, Bin(s.n, k));
      assert Copied(s, Bin(s.n, k)) == c[..|c|] && c[..|c|] == c;
    }
  }

  /** The two copiers work on different buckets and store into different chains of the new table. */
  lemma CopiersApart(states: seq<State>, steps: seq<Step>, i: nat)
    requires IsRun(states, steps) && i < |states|
    ensures var s := states[i];
      && (Active(s.rz) && Active(s.hp) ==> s.rz.b != s.hp.b)
      && (s.rz.Write? && s.hp.Write? ==>
        s.rz.j < |OldChain(s, s.rz.b)| && s.hp.j < |OldChain(s, s.hp.b)| && Target(s, s.rz) != Target(s, s.hp))
  {
    RunInv(states, steps, i);
    if states[i].rz.Write? && states[i].hp.Write? { TargetsApart(states[i]); }
  }

  /** Step e claims old bucket b for copying. */
  predicate Claims(s: State, e: Step, b: nat) {
    LockOf(s, b).Free? && ((e.RunResizer? && s.rz == Claim(b)) || (e.RunHelper? && s.hp == Claim(b)))
  }

  lemma ResizeStays(s: State, e: Step, b: nat)
    requires Enabled(s, e) && (LockOf(s, b).Resize? || Claims(s, e, b))
    ensures LockOf(Apply(s, e), b).Resize?
  {
    hide Lookup, Bin, FirstHole, PutAt, IndexOf;
  }

  lemma {:induction false} ResizeLasts(states: seq<State>, steps: seq<Step>, i: nat, j: nat, b: nat)
    requires IsRun(states, steps) && i < j < |states|
      && (LockOf(states[i], b).Resize? || Claims(states[i], steps[i], b))
    ensures LockOf(states[j], b).Resize?
    decreases j - i
  {
    hide Apply, Enabled, Claims;
    ResizeStays(states[i], steps[i], b);
    if i + 1 < j { ResizeLasts(states, steps, i + 1, j, b); }
  }

  /** No bucket is claimed for copying twice. */
  lemma CopiedOnce(states: seq<State>, steps: seq<Step>, i: nat, j: nat, b: nat)
    requires IsRun(states, steps) && i < j < |steps| && Claims(states[i], steps[i], b)
    ensures !Claims(states[j], steps[j], b)
  {
    ResizeLasts(states, steps, i, j, b);
  }

  // ---- the map ----

  /** What the updates among the steps make of a map: a put binds, a remove unbinds, nothing else counts. */
  function MapAfter(m: map<nat, nat>, steps: seq<Step>): map<nat, nat> {
    if steps == [] then m
    else
      var before := MapAfter(m, steps[..|steps| - 1]);
      match steps[|steps| - 1]
      case Put(k, v) => before[k := v]
      case Remove(k) => before - {k}
      case _ => before
  }

  function OldTable(s: State): Table { Table(s.n, s.table) }

  function NewTable(s: State): Table { Table(s.m, s.neu) }

  lemma PutBinds(s: State, k: nat, v: nat, m: map<nat, nat>)
    requires Enabled(s, Put(k, v)) && Means(OldTable(s), m)
    ensures Means(OldTable(Apply(s, Put(k, v))), m[k := v])
  {
    var t, b := OldTable(s), Bin(s.n, k);
    BucketOf(t, m, k);
    var c := OldChain(s, b);
    PutOk(s.n, b, c, Slot(k, v));
    forall q: nat | q != 0 && Bin(s.n, q) == b
      ensures Lookup(PutAt(c, FirstHole(c), Slot(k, v)), q) == if q in m[k := v] then Some(m[k := v][q]) else None
    {
      BucketOf(t, m, q);
      PutFirst(c, Slot(k, v), q);
    }
    hide Lookup, Bin, Means, Distinct, FirstHole, PutAt, ChainOk;
    ChainStep(t, m, b, PutAt(c, FirstHole(c), Slot(k, v)), m[k := v]);
  }

  lemma RemoveUnbinds(s: State, k: nat, m: map<nat, nat>)
    requires Enabled(s, Remove(k)) && Means(OldTable(s), m)
    ensures Means(OldTable(Apply(s, Remove(k))), m - {k})
  {
    var t, b := OldTable(s), Bin(s.n, k);
    BucketOf(t, m, k);
    var c := OldChain(s, b);
    IndexFinds(c, k);
    hide Lookup, Means, Distinct;
    EraseStep(t, m, b, IndexOf(c, k));
  }

  lemma StepMeans(s: State, e: Step, m: map<nat, nat>)
    requires Enabled(s, e) && Means(OldTable(s), m)
    ensures Means(OldTable(Apply(s, e)), if e.Put? then m[e.k := e.v] else if e.Remove? then m - {e.k} else m)
  {
    hide Means, Lookup, Bin, FirstHole, PutAt, IndexOf;
    if e.Put? { PutBinds(s, e.k, e.v, m); } else if e.Remove? { RemoveUnbinds(s, e.k, m); }
  }

  /** While the resize runs, the old table stands for the map the updates so far have made. */
  lemma {:induction false} OldMeans(states: seq<State>, steps: seq<Step>, i: nat, m: map<nat, nat>)
    requires IsRun(states, steps) && i < |states| && Means(OldTable(states[0]), m)
    ensures Means(OldTable(states[i]), MapAfter(m, steps[..i]))
  {
    hide Means, Apply, Enabled;
    if i > 0 {
      OldMeans(states, steps, i - 1, m);
      assert steps[..i][..i - 1] == steps[..i - 1];
      StepMeans(states[i - 1], steps[i - 1], MapAfter(m, steps[..i - 1]));
    }
  }

  /** And when the table pointer may be swapped, so does the new one: no update is lost or changed. */
  lemma NewMeans(states: seq<State>, steps: seq<Step>, i: nat, m: map<nat, nat>)
    requires IsRun(states, steps) && i < |states| && Means(OldTable(states[0]), m)
    requires states[i].phase.Go? || states[i].phase.Swapped?
    ensures Means(NewTable(states[i]), MapAfter(m, steps[..i]))
  {
    SwapIsExact(states, steps, i);
    OldMeans(states, steps, i, m);
  }

  /** A table that holds exactly the old map means the same map. */
  lemma SwapKeepsMap(states: seq<State>, steps: seq<Step>, i: nat, m: map<nat, nat>)
    requires IsRun(states, steps) && i < |states| && states[i].phase.Swapped? && Means(OldTable(states[i]), m)
    ensures Means(NewTable(states[i]), m)
  {
    SwapIsExact(states, steps, i);
  }
}
