/**
 * The two-ended resize of P-CLHT as a small-step machine: a resizer copies the old buckets from the
 * bottom up and at most one helper from the top down, with no lock on the new table, while other
 * threads go on updating the buckets nobody has claimed yet.
 */
module ClhtResize {
  import opened Common
  import opened ClhtHash
  import opened ClhtTable

  datatype Lock = Free | Update | Resize

  /**
   * A thread in bucket_cpy: about to claim a bucket, reading entry j of it, or storing it at slot i of the new chain.
   */
  datatype Copier = Off | Claim(b: nat) | Copy(b: nat, j: nat) | Write(b: nat, j: nat, i: nat) | Stopped

  datatype Phase = Working | Wait | Go | Swapped

  /** n: old size; m: new size; grow: whether helpers are admitted; open: is_helper is still 1. */
  datatype State = State(
    n: nat, m: nat, grow: bool,
    table: map<nat, seq<Slot>>, lock: map<nat, Lock>, neu: map<nat, seq<Slot>>,
    open: bool, rz: Copier, hp: Copier, phase: Phase)

  datatype Step =
    | Acquire(b: nat)
    | Put(k: nat, v: nat)
    | Remove(k: nat)
    | Release(b: nat)
    | StartHelp
    | RunResizer
    | RunHelper
    | Test
    | SeeDone
    | Swap

  function OldChain(s: State, b: nat): seq<Slot> { Get(s.table, b, []) }

  function NewChain(s: State, c: nat): seq<Slot> { Get(s.neu, c, []) }

  function LockOf(s: State, b: nat): Lock { Get(s.lock, b, Free) }

  function Advance(up: bool, b: nat, n: nat): Copier {
    if up then if b + 1 < n then Claim(b + 1) else Stopped
    else if b > 0 then Claim(b - 1) else Stopped
  }

  /** The copier's next position. */
  function Move(s: State, c: Copier, up: bool): Copier {
    match c
    case Claim(b) => if LockOf(s, b).Free? then Copy(b, 0) else if LockOf(s, b).Update? then c else Stopped
    case Copy(b, j) =>
      if j >= |OldChain(s, b)| then Advance(up, b, s.n)
      else if OldChain(s, b)[j].key == 0 then Copy(b, j + 1)
      else Write(b, j, FirstHole(NewChain(s, Bin(s.m, OldChain(s, b)[j].key))))
    case Write(b, j, i) => Copy(b, j + 1)
    case _ => c
  }

  /** The copier's effect on memory. */
  function Effect(s: State, c: Copier): State {
    match c
    case Claim(b) => if LockOf(s, b).Free? then s.(lock := s.lock[b := Resize]) else s
    case Write(b, j, i) =>
      if j >= |OldChain(s, b)| then s
      else
        var e := OldChain(s, b)[j];
        s.(neu := s.neu[Bin(s.m, e.key) := PutAt(NewChain(s, Bin(s.m, e.key)), i, e)])
    case _ => s
  }

  predicate Enabled(s: State, e: Step) {
    match e
    case Acquire(b) => b < s.n && LockOf(s, b).Free?
    case Put(k, v) => k != 0 && s.n != 0 && LockOf(s, Bin(s.n, k)).Update? && Lookup(OldChain(s, Bin(s.n, k)), k).None?
    case Remove(k) => k != 0 && s.n != 0 && LockOf(s, Bin(s.n, k)).Update? && Lookup(OldChain(s, Bin(s.n, k)), k).Some?
    case Release(b) => LockOf(s, b).Update?
    case StartHelp => s.open && s.n > 0
    case RunResizer => !s.rz.Stopped?
    case RunHelper => !s.hp.Off? && !s.hp.Stopped?
    case Test => s.phase.Working? && s.rz.Stopped?
    case SeeDone => s.phase.Wait? && s.hp.Stopped?
    case Swap => s.phase.Go?
  }

  function Apply(s: State, e: Step): State
    requires Enabled(s, e)
  {
    match e
    case Acquire(b) => s.(lock := s.lock[b := Update])
    case Put(k, v) =>
      var c := OldChain(s, Bin(s.n, k));
      s.(table := s.table[Bin(s.n, k) := PutAt(c, FirstHole(c), Slot(k, v))])
    case Remove(k) =>
      var c := OldChain(s, Bin(s.n, k));
      var i := IndexOf(c, k);
      s.(table := s.table[Bin(s.n, k) := if i < |c| then c[i := Slot(0, c[i].val)] else c])
    case Release(b) => s.(lock := s.lock[b := Free])
    case StartHelp => s.(open := false, hp := Claim(s.n - 1))
    case RunResizer => Effect(s, s.rz).(rz := Move(s, s.rz, true))
    case RunHelper => Effect(s, s.hp).(hp := Move(s, s.hp, false))
    case Test => s.(phase := if s.grow && !s.open then Wait else Go)
    case SeeDone => s.(phase := Go)
    case Swap => s.(phase := Swapped)
  }

  /** ht_resize_pes has created the new table and published it to helpers. */
  ghost predicate Init(s: State) {
    && s.n > 0 && s.m > 0 && (s.grow ==> Nested(s.n, s.m)) && s.open == s.grow
    && TableOk(Table(s.n, s.table)) && (forall b: nat :: b in s.lock ==> s.lock[b] != Resize)
    && (forall c: nat :: c < s.m ==> c in s.neu && s.neu[c] == EMPTY_BUCKET)
    && s.rz == Claim(0) && s.hp == Off && s.phase == Working
  }

  ghost predicate IsRun(states: seq<State>, steps: seq<Step>) {
    && |states| == |steps| + 1 && Init(states[0])
    && forall i :: 0 <= i < |steps| ==> Enabled(states[i], steps[i]) && states[i + 1] == Apply(states[i], steps[i])
  }

  // ---- the invariant ----

  predicate Active(c: Copier) { c.Copy? || c.Write? }

  predicate ActiveAt(c: Copier, b: nat) { Active(c) && c.b == b }

  predicate BelowLo(rz: Copier, b: nat) { rz.Stopped? || ((rz.Claim? || Active(rz)) && b < rz.b) }

  predicate AboveHi(hp: Copier, b: nat) { hp.Stopped? || ((hp.Claim? || Active(hp)) && b > hp.b) }

  predicate Claimed(rz: Copier, hp: Copier, b: nat) {
    BelowLo(rz, b) || AboveHi(hp, b) || ActiveAt(rz, b) || ActiveAt(hp, b)
  }

  /** How many entries of old bucket b have been copied. */
  function Progress(s: State, b: nat): nat {
    if !Claimed(s.rz, s.hp, b) then 0
    else if ActiveAt(s.rz, b) then s.rz.j
    else if ActiveAt(s.hp, b) then s.hp.j
    else |OldChain(s, b)|
  }

  function Copied(s: State, b: nat): seq<Slot> {
    var c := OldChain(s, b);
    if Progress(s, b) <= |c| then c[..Progress(s, b)] else c
  }

  predicate CopierOk(s: State, c: Copier) {
    && (c.Claim? || Active(c) ==> c.b < s.n)
    && (c.Copy? ==> c.j <= |OldChain(s, c.b)|)
    && (c.Write? ==> c.j < |OldChain(s, c.b)| && OldChain(s, c.b)[c.j].key != 0
                     && c.i == FirstHole(NewChain(s, Bin(s.m, OldChain(s, c.b)[c.j].key))))
  }

  ghost predicate LocksOk(s: State) { forall b: nat :: b < s.n ==> (LockOf(s, b).Resize? <==> Claimed(s.rz, s.hp, b)) }

  ghost predicate NewOk(s: State) {
    && (forall c: nat :: c < s.m ==> c in s.neu && ChainOk(s.m, c, s.neu[c]))
    && forall k: nat :: k != 0 ==> Lookup(NewChain(s, Bin(s.m, k)), k) == Lookup(Copied(s, Bin(s.n, k)), k)
  }

  ghost predicate PhaseOk(s: State) {
    && (!s.phase.Working? ==> s.rz.Stopped?) && !s.rz.Off?
    && (s.phase.Go? || s.phase.Swapped? ==> !Active(s.hp))
    && (s.open ==> s.hp.Off? && s.grow) && (!s.hp.Off? ==> s.grow && !s.open) && (s.grow && !s.open ==> !s.hp.Off?)
    && (s.grow ==> Nested(s.n, s.m))
  }

  ghost predicate Inv(s: State) {
    && s.n > 0 && s.m > 0 && TableOk(Table(s.n, s.table))
    && CopierOk(s, s.rz) && CopierOk(s, s.hp) && (Active(s.rz) && Active(s.hp) ==> s.rz.b != s.hp.b)
    && LocksOk(s) && NewOk(s) && PhaseOk(s)
  }
}
