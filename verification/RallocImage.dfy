/**
 * What a crash can find in the descriptors: their persistent fields are written one store at a time,
 * a cache line may be written back at any moment, and only a flush makes sure that it is.
 */
module RallocImage {
  import opened Common
  import opened RallocRecovery

  /** What is going on in a superblock; k counts the stores done. */
  datatype Role =
    | Spare
    | Forming(sc: nat, size: nat, k: nat)
    | Small(sc: nat, size: nat)
    | Erasing(sc: nat, size: nat, k: nat)
    | Rising(n: nat, k: nat)
    | Large(n: nat)
    | Falling(n: nat, k: nat)
    | Tail(head: nat)

  /** The descriptors in memory and on the medium. */
  datatype State = State(desc: seq<Desc>, saved: seq<Desc>, role: seq<Role>)

  datatype Step =
    | Grow(n: nat)
    | GrowLarge(n: nat)
    | Format(d: nat, sc: nat, size: nat)
    | Retire(d: nat)
    | FreeLarge(d: nat)
    | Store(d: nat)
    | Finish(d: nat)
    | Evict(d: nat)

  /** A descriptor with the first k of the four stores of malloc_from_newsb or do_malloc done. */
  function Partly(full: Desc, k: nat): Desc {
    Desc(if k > 0 then full.heap else None, if k > 3 then full.superblock else None,
         if k > 1 then full.blockSize else 0, if k > 2 then full.maxcount else 0)
  }

  /** A descriptor with the first k of the four fields cleared, as the constructor does. */
  function Cleared(full: Desc, k: nat): Desc {
    Desc(if k > 1 then None else full.heap, if k > 0 then None else full.superblock,
         if k > 2 then 0 else full.blockSize, if k > 3 then 0 else full.maxcount)
  }

  function SmallDesc(d: nat, sc: nat, size: nat): Desc {
    Desc(Some(sc), Some(d * SBSIZE), size, if size == 0 then 0 else SBSIZE / size)
  }

  function LargeDesc(d: nat, n: nat): Desc { Desc(Some(0), Some(d * SBSIZE), n * SBSIZE, 1) }

  predicate RoleOk(r: Role) {
    match r
    case Forming(sc, size, k) => sc != 0 && 0 < size <= SBSIZE && k <= 4
    case Small(sc, size) => sc != 0 && 0 < size <= SBSIZE
    case Erasing(sc, size, k) => sc != 0 && 0 < size <= SBSIZE && k <= 4
    case Rising(n, k) => n > 0 && k <= 4
    case Large(n) => n > 0
    case Falling(n, k) => n > 0 && k <= 4
    case _ => true
  }

  /** What the stores so far have put into memory. */
  function Value(r: Role, d: nat): Desc {
    match r
    case Forming(sc, size, k) => Partly(SmallDesc(d, sc, size), k)
    case Small(sc, size) => SmallDesc(d, sc, size)
    case Erasing(sc, size, k) => Cleared(SmallDesc(d, sc, size), k)
    case Rising(n, k) => Partly(LargeDesc(d, n), k)
    case Large(n) => LargeDesc(d, n)
    case Falling(n, k) => Cleared(LargeDesc(d, n), k)
    case _ => BLANK
  }

  predicate Heads(r: Role) { r.Rising? || r.Large? || r.Falling? }

  predicate Sized(s: State) { 0 < |s.desc| == |s.saved| == |s.role| }

  predicate Enabled(s: State, e: Step) {
    && Sized(s)
    && match e
       case Grow(n) => n > 0
       case GrowLarge(n) => n > 0
       case Format(d, sc, size) => 0 < d < |s.role| && s.role[d].Spare? && sc != 0 && 0 < size <= SBSIZE
       case Retire(d) => d < |s.role| && s.role[d].Small?
       case FreeLarge(d) => d < |s.role| && s.role[d].Large?
       case Store(d) => d < |s.role| && Storing(s.role[d]) && s.role[d].k < 4
       case Finish(d) => d < |s.role| && Storing(s.role[d]) && s.role[d].k == 4
       case Evict(d) => d < |s.role|
  }

  predicate Storing(r: Role) { r.Forming? || r.Erasing? || r.Rising? || r.Falling? }

  function Next(r: Role): Role
    requires Storing(r)
  {
    match r
    case Forming(sc, size, k) => Forming(sc, size, k + 1)
    case Erasing(sc, size, k) => Erasing(sc, size, k + 1)
    case Rising(n, k) => Rising(n, k + 1)
    case Falling(n, k) => Falling(n, k + 1)
  }

  /** What the last store and what follows it make of a superblock. */
  function Finished(r: Role): Role
    requires Storing(r)
  {
    match r
    case Forming(sc, size, _) => Small(sc, size)
    case Rising(n, _) => Large(n)
    case _ => Spare
  }

  /** The roles of the n superblocks from d on, when one of them is a block of its own. */
  function Span(d: nat, n: nat): (r: seq<Role>)
    requires n > 0
    ensures |r| == n && r[0] == Rising(n, 0) && forall i :: 0 < i < n ==> r[i] == Tail(d)
  {
    [Rising(n, 0)] + seq(n - 1, i => Tail(d))
  }

  function Repeat<T>(x: T, n: nat): (r: seq<T>)
    ensures |r| == n && forall i :: 0 <= i < n ==> r[i] == x
  {
    seq(n, i => x)
  }

  /** The superblocks behind head d become spare. */
  function Released(role: seq<Role>, d: nat): (r: seq<Role>)
    ensures |r| == |role| && forall x :: 0 <= x < |r| ==> r[x] == if role[x] == Tail(d) then Spare else role[x]
  {
    seq(|role|, x requires 0 <= x < |role| => if role[x] == Tail(d) then Spare else role[x])
  }

  function Apply(s: State, e: Step): State
    requires Enabled(s, e)
  {
    match e
    case Grow(n) =>
      State(s.desc + Repeat(BLANK, n), s.saved + Repeat(BLANK, n), s.role + Repeat(Spare, n))
    case GrowLarge(n) =>
      State(s.desc + Repeat(BLANK, n), s.saved + Repeat(BLANK, n), s.role + Span(|s.role|, n))
    case Format(d, sc, size) => s.(role := s.role[d := Forming(sc, size, 0)])
    case Retire(d) => s.(role := s.role[d := Erasing(s.role[d].sc, s.role[d].size, 0)])
    case FreeLarge(d) => s.(role := s.role[d := Falling(s.role[d].n, 0)])
    case Store(d) =>
      var r := Next(s.role[d]);
      s.(role := s.role[d := r], desc := s.desc[d := Value(r, d)])
    case Finish(d) =>
      // the flush; do_malloc flushes the address of its local variable instead
      var s' := if s.role[d].Rising? then s else s.(saved := s.saved[d := s.desc[d]]);
      s'.(role := (if s.role[d].Falling? then Released(s.role, d) else s.role)[d := Finished(s.role[d])])
    case Evict(d) => s.(saved := s.saved[d := s.desc[d]])
  }

  /** A region with its first superblock, which is never used. */
  predicate Init(s: State) { s.desc == [BLANK] && s.saved == [BLANK] && s.role == [Tail(0)] }

  ghost predicate IsRun(states: seq<State>, steps: seq<Step>) {
    && |states| == |steps| + 1 && Init(states[0])
    && forall i :: 0 <= i < |steps| ==> Enabled(states[i], steps[i]) && states[i + 1] == Apply(states[i], steps[i])
  }

  // ---- the invariant ----

  /** What the medium may hold of a superblock. */
  ghost predicate SavedOk(r: Role, d: nat, v: Desc) {
    match r
    case Forming(sc, size, k) => exists j: nat :: j <= k && v == Partly(SmallDesc(d, sc, size), j)
    case Small(sc, size) => v == SmallDesc(d, sc, size)
    case Erasing(sc, size, k) => exists j: nat :: j <= k && v == Cleared(SmallDesc(d, sc, size), j)
    case Rising(n, k) => exists j: nat :: j <= k && v == Partly(LargeDesc(d, n), j)
    case Large(n) => exists j: nat :: v == Partly(LargeDesc(d, n), j)
    case Falling(n, k) =>
      || (exists j: nat :: v == Partly(LargeDesc(d, n), j))
      || exists j: nat :: j <= k && v == Cleared(LargeDesc(d, n), j)
    case _ => v == BLANK
  }

  ghost predicate CellOk(s: State, d: nat)
    requires Sized(s) && d < |s.role|
  {
    RoleOk(s.role[d]) && s.desc[d] == Value(s.role[d], d) && SavedOk(s.role[d], d, s.saved[d])
  }

  /** A large block's superblocks are its own. */
  ghost predicate SpanOk(role: seq<Role>, d: nat)
    requires d < |role|
  {
    Heads(role[d]) ==>
      d + role[d].n <= |role| && forall x: nat :: d < x < |role| ==> (role[x] == Tail(d) <==> x < d + role[d].n)
  }

  ghost predicate Inv(s: State) {
    && Sized(s) && s.role[0] == Tail(0)
    && (forall d: nat :: d < |s.role| ==> CellOk(s, d))
    && forall d: nat :: d < |s.role| ==> SpanOk(s.role, d)
  }

  lemma SavedNow(r: Role, d: nat)
    requires RoleOk(r)
    ensures SavedOk(r, d, Value(r, d))
  {
    match r {
      case Forming(sc, size, k) => assert Value(r, d) == Partly(SmallDesc(d, sc, size), k);
      case Erasing(sc, size, k) => assert Value(r, d) == Cleared(SmallDesc(d, sc, size), k);
      case Rising(n, k) => assert Value(r, d) == Partly(LargeDesc(d, n), k);
      case Large(n) => assert Value(r, d) == Partly(LargeDesc(d, n), 4);
      case Falling(n, k) => assert Value(r, d) == Cleared(LargeDesc(d, n), k);
      case _ =>
    }
  }

  /** Starting an operation changes nothing, and one more store leaves the medium as it may be. */
  lemma Moves(r: Role, r': Role, d: nat, v: Desc)
    requires RoleOk(r) && SavedOk(r, d, v)
    requires
      || (r.Spare? && r'.Forming? && r'.k == 0) || (r.Small? && r' == Erasing(r.sc, r.size, 0))
      || (r.Large? && r' == Falling(r.n, 0)) || (Storing(r) && r' == Next(r)) || (r.Rising? && r' == Large(r.n))
    ensures SavedOk(r', d, v)
    ensures !Storing(r) ==> Value(r', d) == Value(r, d)
  {
    if r.Spare? { assert v == Partly(SmallDesc(d, r'.sc, r'.size), 0); }
    if r.Small? { assert v == Cleared(SmallDesc(d, r.sc, r.size), 0); }
  }

  lemma FinishedValue(r: Role, d: nat)
    requires RoleOk(r) && Storing(r) && r.k == 4
    ensures RoleOk(Finished(r)) && Value(Finished(r), d) == Value(r, d)
  {
  }

  /** Changing what one superblock is about. */
  lemma OneCell(s: State, s': State, d: nat)
    requires Inv(s) && 0 < d < |s.role| && Sized(s') && |s'.role| == |s.role|
    requires s' == State(s.desc[d := s'.desc[d]], s.saved[d := s'.saved[d]], s.role[d := s'.role[d]])
    requires CellOk(s', d) && !s.role[d].Tail? && !s'.role[d].Tail?
    requires Heads(s'.role[d]) ==> Heads(s.role[d]) && s'.role[d].n == s.role[d].n
    ensures Inv(s')
  {
    hide SavedOk, Value, RoleOk;
    forall x: nat | x < |s'.role| ensures CellOk(s', x) && SpanOk(s'.role, x) {
      assert CellOk(s, x) && SpanOk(s.role, x) && SpanOk(s.role, d);
    }
  }

  lemma GrowKeeps(s: State, e: Step)
    requires Inv(s) && Enabled(s, e) && (e.Grow? || e.GrowLarge?)
    ensures Inv(Apply(s, e))
  {
    var s' := Apply(s, e);
    forall x: nat | x < |s'.role| ensures CellOk(s', x) && SpanOk(s'.role, x) {
      if x < |s.role| {
        assert CellOk(s, x) && SpanOk(s.role, x);
      } else if x == |s.role| && e.GrowLarge? {
        assert s'.saved[x] == Partly(LargeDesc(x, e.n), 0);
      }
    }
  }

  /** The span of a freed large block is released. */
  lemma FallKeeps(s: State, e: Step)
    requires Inv(s) && Enabled(s, e) && e.Finish? && s.role[e.d].Falling?
    ensures Inv(Apply(s, e))
  {
    hide SavedOk, Partly;
    var s' := Apply(s, e);
    forall x: nat | x < |s'.role| ensures CellOk(s', x) && SpanOk(s'.role, x) {
      assert CellOk(s, x) && SpanOk(s.role, x) && CellOk(s, e.d);
      SavedNow(Spare, x);
      if s.role[x] == Tail(e.d) { BlankSaved(s.role[x], x, s.saved[x]); }
    }
  }

  lemma BlankSaved(r: Role, x: nat, v: Desc)
    requires SavedOk(r, x, v) && r.Tail?
    ensures v == BLANK
  {
  }

  lemma StepKeeps(s: State, e: Step)
    requires Inv(s) && Enabled(s, e)
    ensures Inv(Apply(s, e))
  {
    hide SavedOk, Value, RoleOk, SpanOk;
    if e.Grow? || e.GrowLarge? {
      GrowKeeps(s, e);
    } else if e.Finish? && s.role[e.d].Falling? {
      FallKeeps(s, e);
    } else {
      ActKeeps(s, e);
    }
  }

  lemma ActKeeps(s: State, e: Step)
    requires Inv(s) && Enabled(s, e) && !e.Grow? && !e.GrowLarge? && !(e.Finish? && s.role[e.d].Falling?)
    ensures Inv(Apply(s, e))
  {
    hide SpanOk, SavedOk, Value;
    var s', d := Apply(s, e), e.d;
    assert CellOk(s, d);
    if e.Evict? {
      SavedNow(s.role[d], d);
      EvictKeeps(s, d);
    } else {
      if e.Finish? { FinishedValue(s.role[d], d); }
      if e.Finish? && !s.role[d].Rising? {
        SavedNow(s'.role[d], d);
      } else {
        Moves(s.role[d], s'.role[d], d, s.saved[d]);
      }
      OneCell(s, s', d);
    }
  }

  lemma EvictKeeps(s: State, d: nat)
    requires Inv(s) && d < |s.role| && SavedOk(s.role[d], d, s.desc[d])
    ensures Inv(s.(saved := s.saved[d := s.desc[d]]))
  {
    hide SavedOk, Value, RoleOk, SpanOk;
    var s' := s.(saved := s.saved[d := s.desc[d]]);
    forall x: nat | x < |s'.role| ensures CellOk(s', x) && SpanOk(s'.role, x) {
      assert CellOk(s, x) && SpanOk(s.role, x);
    }
  }

  lemma {:induction false} RunInv(states: seq<State>, steps: seq<Step>, i: nat)
    requires IsRun(states, steps) && i < |states|
    ensures Inv(states[i])
  {
    hide Enabled, Apply;
    if i == 0 {
      InitHolds(states[0]);
    } else {
      RunInv(states, steps, i - 1);
      StepKeeps(states[i - 1], steps[i - 1]);
    }
  }

  lemma InitHolds(s: State)
    requires Init(s)
    ensures Inv(s)
  {
  }

  // ---- what recovery finds ----

  /** A descriptor that says it is in use is complete. */
  lemma InUseIsFull(r: Role, d: nat, v: Desc)
    requires RoleOk(r) && (v == Value(r, d) || SavedOk(r, d, v)) && v.heap.Some? && v.superblock == Some(d * SBSIZE)
    ensures if r.Forming? || r.Small? || r.Erasing? then v == SmallDesc(d, r.sc, r.size)
            else Heads(r) && v == LargeDesc(d, r.n)
  {
  }

  lemma ImageOk(role: seq<Role>, v: seq<Desc>)
    requires 0 < |v| == |role| && role[0] == Tail(0)
    requires forall d: nat :: d < |role| ==> RoleOk(role[d]) && SpanOk(role, d)
    requires forall d: nat :: d < |role| ==> v[d] == Value(role[d], d) || SavedOk(role[d], d, v[d])
    ensures WellFormed(v)
  {
    hide SavedOk, Value;
    forall d: nat | InUse(v, d)
      ensures if role[d].Forming? || role[d].Small?
        || role[d].Erasing? then v[d] == SmallDesc(d, role[d].sc, role[d].size)
              else Heads(role[d]) && v[d] == LargeDesc(d, role[d].n)
    {
      InUseIsFull(role[d], d, v[d]);
    }
    forall d: nat | d < |v| ensures DescOk(v, d) && (IsLarge(v, d) ==> Alone(v, d)) {
      if IsLarge(v, d) { SpanSize(role[d].n); assert SpanOk(role, d); }
    }
  }

  lemma SpanSize(n: nat)
    ensures SpanOf(n * SBSIZE) == n
  {
  }

  /** Whatever moment a crash comes at, recovery finds well-formed descriptors, and so does anyone else before it. */
  lemma ImageIsWellFormed(states: seq<State>, steps: seq<Step>, i: nat)
    requires IsRun(states, steps) && i < |states|
    ensures WellFormed(states[i].desc) && WellFormed(states[i].saved)
  {
    hide SavedOk, Value, RoleOk, SpanOk;
    RunInv(states, steps, i);
    var s := states[i];
    forall d: nat | d < |s.role|
      ensures RoleOk(s.role[d]) && SpanOk(s.role, d) && s.desc[d] == Value(s.role[d], d)
        && SavedOk(s.role[d], d, s.saved[d])
    {
      assert CellOk(s, d);
    }
    ImageOk(s.role, s.desc);
    ImageOk(s.role, s.saved);
  }

  /** A small superblock that has been handed out is on the medium, one that was taken back is not. */
  lemma SmallIsDurable(states: seq<State>, steps: seq<Step>, i: nat, d: nat)
    requires IsRun(states, steps) && i < |states| && d < |states[i].role|
    requires states[i].role[d].Small? || states[i].role[d].Spare?
    ensures Sized(states[i]) && states[i].saved[d] == states[i].desc[d]
    ensures IsSmall(states[i].saved, d) <==> states[i].role[d].Small?
  {
    RunInv(states, steps, i);
    assert CellOk(states[i], d);
  }

  /** Nothing retires or frees superblock d between steps j and i. */
  ghost predicate Lives(steps: seq<Step>, d: nat, j: nat, i: nat) {
    j < i <= |steps| && forall l :: j < l < i ==> steps[l] != Retire(d) && steps[l] != FreeLarge(d)
  }

  lemma FormatStep(s: State, e: Step, d: nat, sc: nat, size: nat)
    requires Enabled(s, e) && d < |s.role| && e != Retire(d)
    requires s.role[d] == Small(sc, size) || (s.role[d].Forming? && s.role[d].sc == sc && s.role[d].size == size)
    ensures
      var s' := Apply(s, e);
      d < |s'.role|
        && (s'.role[d] == Small(sc, size) || (s'.role[d].Forming? && s'.role[d].sc == sc && s'.role[d].size == size))
  {
  }

  /** A superblock formatted for class sc stays so until it is retired, and once handed out is on the medium as such. */
  lemma {:induction false} FormatLasts(states: seq<State>, steps: seq<Step>, d: nat, sc: nat, size: nat, j: nat, i: nat)
    requires IsRun(states, steps) && Lives(steps, d, j, i) && steps[j] == Format(d, sc, size)
    ensures
      var s := states[i];
      && Sized(s) && d < |s.role| && size > 0
      && (s.role[d] == Small(sc, size) || (s.role[d].Forming? && s.role[d].sc == sc && s.role[d].size == size))
      && (s.role[d].Small? ==> s.desc[d] == s.saved[d] == Desc(Some(sc), Some(d * SBSIZE), size, SBSIZE / size))
    decreases i
  {
    hide SpanOk;
    RunInv(states, steps, i);
    var s, e := states[i - 1], steps[i - 1];
    assert Enabled(s, e) && states[i] == Apply(s, e);
    if i > j + 1 {
      FormatLasts(states, steps, d, sc, size, j, i - 1);
      hide Enabled, Apply, Inv;
      FormatStep(s, e, d, sc, size);
    }
    assert CellOk(states[i], d);
  }

  lemma LargeStep(s: State, e: Step, d: nat, n: nat)
    requires Enabled(s, e) && d < |s.role| && e != FreeLarge(d)
    requires s.role[d] == Large(n) || (s.role[d].Rising? && s.role[d].n == n)
    ensures
      var s' := Apply(s, e);
      d < |s'.role| && (s'.role[d] == Large(n) || (s'.role[d].Rising? && s'.role[d].n == n))
  {
  }

  /** A large block of n superblocks stays so until it is freed, and once handed out its descriptor says so. */
  lemma {:induction false} LargeLasts(states: seq<State>, steps: seq<Step>, n: nat, j: nat, i: nat)
    requires IsRun(states, steps) && j < |steps| && steps[j] == GrowLarge(n) && Lives(steps, |states[j].role|, j, i)
    ensures
      var s, d := states[i], |states[j].role|;
      && Sized(s) && d < |s.role|
      && (s.role[d] == Large(n) || (s.role[d].Rising? && s.role[d].n == n))
      && (s.role[d].Large? ==> s.desc[d] == Desc(Some(0), Some(d * SBSIZE), n * SBSIZE, 1))
    decreases i
  {
    hide SpanOk;
    RunInv(states, steps, i);
    var s, e, d := states[i - 1], steps[i - 1], |states[j].role|;
    assert Enabled(s, e) && states[i] == Apply(s, e);
    if i > j + 1 {
      LargeLasts(states, steps, n, j, i - 1);
      hide Enabled, Apply, Inv;
      LargeStep(s, e, d, n);
    }
    assert CellOk(states[i], d);
  }

  /** The stores that make d head a large block of n superblocks are done, and it has not been freed since. */
  predicate Standing(s: State, d: nat, n: nat) {
    Sized(s) && d < |s.role| && (s.role[d] == Rising(n, 4) || s.role[d] == Large(n))
  }

  /**
   * do_malloc does not flush the descriptor of a large block: the block survives a crash exactly if
   * the cache line happens to have been written back since the last store, step a.
   */
  lemma {:induction false} LargeIsDurableIff(states: seq<State>, steps: seq<Step>, a: nat, b: nat, d: nat, n: nat)
    requires IsRun(states, steps) && a < b < |states| && steps[a] == Store(d)
    requires forall i :: a < i <= b ==> Standing(states[i], d, n)
    ensures IsLarge(states[b].saved, d) <==> exists c :: a < c < b && steps[c] == Evict(d)
    decreases b
  {
    hide Inv, Enabled, Apply, Standing, IsLarge;
    var s, e := states[b - 1], steps[b - 1];
    RunInv(states, steps, b - 1);
    assert Enabled(s, e) && states[b] == Apply(s, e) && Standing(states[b], d, n);
    if b == a + 1 {
      LastStore(s, d, n);
    } else {
      LargeIsDurableIff(states, steps, a, b - 1, d, n);
      StillSaved(s, e, d, n);
    }
  }

  lemma LastStore(s: State, d: nat, n: nat)
    requires Inv(s) && Enabled(s, Store(d)) && Standing(Apply(s, Store(d)), d, n)
    ensures !IsLarge(Apply(s, Store(d)).saved, d)
  {
    hide SpanOk;
    assert CellOk(s, d) && s.role[d] == Rising(n, 3);
  }

  lemma StillSaved(s: State, e: Step, d: nat, n: nat)
    requires Inv(s) && Enabled(s, e) && Standing(s, d, n) && Standing(Apply(s, e), d, n)
    ensures IsLarge(Apply(s, e).saved, d) <==> e == Evict(d) || IsLarge(s.saved, d)
  {
    hide SpanOk;
    assert CellOk(s, d);
  }
}
