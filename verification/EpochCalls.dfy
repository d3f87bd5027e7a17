/**
 * What one whole cleanup does: it frees exactly the labels older than the oldest epoch it met, and
 * that is the smallest of the local epochs as they were when each of them was looked at.
 */
module EpochCalls {
  import opened Common
  import opened EpochList
  import opened EpochMachine

  function Deleted(s: State, t: nat): nat { Get(s.deleted, t, 0) }

  /** a <= b, where None is the largest epoch. */
  predicate AtMost(a: Option<nat>, b: Option<nat>) { b.None? || (a.Some? && a.value <= b.value) }

  /** Thread t enters no guard between steps r and i: they belong to the cleanup that step r begins. */
  ghost predicate SameCleanup(steps: seq<Step>, t: nat, r: nat, i: nat) {
    r < i <= |steps| && steps[r] == Retreat(t) && forall l :: r < l < i ==> steps[l] != Load(t)
  }

  /** Step l, of the cleanup that step r begins, looked at the epoch of u. */
  ghost predicate LookedAt(steps: seq<Step>, t: nat, r: nat, i: nat, l: nat, u: nat) {
    r < l < i <= |steps| && steps[l] == Look(t, u)
  }

  ghost predicate LookedSome(steps: seq<Step>, t: nat, r: nat, i: nat, u: nat) {
    exists l: nat :: LookedAt(steps, t, r, i, l, u)
  }

  /** oldest is the least of the epochs the cleanup has looked at, each as it was at that moment. */
  ghost predicate LeastSeen(states: seq<State>, steps: seq<Step>, t: nat, r: nat, i: nat, oldest: Option<nat>)
    requires |states| == |steps| + 1
  {
    && (forall l: nat, u: nat :: LookedAt(steps, t, r, i, l, u) ==> AtMost(oldest, Local(states[l], u)))
    && (oldest.Some? ==> exists l: nat, u: nat :: LookedAt(steps, t, r, i, l, u) && Local(states[l], u) == oldest)
  }

  /** Everyone but those in `todo` was looked at. */
  ghost predicate SeenBut(steps: seq<Step>, t: nat, r: nat, i: nat, all: set<nat>, todo: set<nat>) {
    forall u: nat :: u in all && u !in todo ==> LookedSome(steps, t, r, i, u)
  }

  // ---- single steps ----

  /** What is thread t's own is as it was, and what was freed stays freed. */
  ghost predicate Untouched(s: State, s': State, t: nat) {
    && Pc(s', t) == Pc(s, t) && Labels(s', t) == Labels(s, t) && Deleted(s', t) == Deleted(s, t)
    && s.freed <= s'.freed && s'.pc.Keys == s.pc.Keys
  }

  lemma OthersReap(s: State, u: nat, t: nat)
    requires Pc(s, u).Sweep? && u != t
    ensures Untouched(s, Reap(s, u), t)
  {
    assert u in s.pc;
    if Pc(s, u).at >= |Labels(s, u)| { }
    else if Older(Labels(s, u)[Pc(s, u).at].epoch, Pc(s, u).oldest) { }
  }

  lemma OthersLeave(gc: nat, s: State, e: Step, t: nat)
    requires Enabled(s, e) && e.t != t
    ensures Untouched(s, Apply(gc, s, e), t)
  {
    hide Added, Min, Leave, Reap, Reach;
    assert e.t in s.pc;
    if e.Exit? { LeaveShape(s, e.t, gc); }
    else if e.Clean? { OthersReap(s, e.t, t); }
  }

  lemma LookStep(gc: nat, s: State, e: Step, t: nat)
    requires Enabled(s, e) && e.t == t && Pc(s, t).Scan?
    ensures var s', p := Apply(gc, s, e), Pc(s, t);
      && Labels(s', t) == Labels(s, t) && Deleted(s', t) == Deleted(s, t)
      && ((e.Look? && e.u in p.todo && Pc(s', t) == Scan(p.todo - {e.u}, Min(p.oldest, Local(s, e.u))))
          || (e == Looked(t) && p.todo == {} && Pc(s', t) == Sweep(p.oldest, 0)))
  {
    hide Leave, Reap, Added, Min, Reach;
    assert e.Look? || e.Looked?;
  }

  /** The labels up to `at` are those kept so far, and what they held is freed or still to come. */
  ghost predicate SweptTo(was: seq<Label>, ls: seq<Label>, oldest: Option<nat>, at: nat, freed: set<nat>, count: nat) {
    && at <= |ls| && ls[..at] + Young(ls[at..], oldest) == Young(was, oldest)
    && (forall n: nat :: n in Old(was, oldest) ==> n in freed || n in Old(ls[at..], oldest))
    && count + |Old(ls[at..], oldest)| == |Old(was, oldest)|
  }

  lemma SweepBegins(ls: seq<Label>, oldest: Option<nat>, freed: set<nat>)
    ensures SweptTo(ls, ls, oldest, 0, freed, 0)
  {
    assert ls[0..] == ls && ls[..0] == [];
  }

  lemma SweepEnds(was: seq<Label>, ls: seq<Label>, oldest: Option<nat>, at: nat, freed: set<nat>, count: nat)
    requires SweptTo(was, ls, oldest, at, freed, count) && at >= |ls|
    ensures ls == Young(was, oldest) && count == |Old(was, oldest)|
    ensures forall n: nat :: n in Old(was, oldest) ==> n in freed
  {
    assert ls[at..] == [] && ls[..at] == ls;
  }

  lemma SweepGoesOn(was: seq<Label>, ls: seq<Label>, oldest: Option<nat>, at: nat, freed: set<nat>, count: nat)
    requires SweptTo(was, ls, oldest, at, freed, count) && at < |ls|
    ensures
      if Older(ls[at].epoch, oldest)
      then SweptTo(was, Without(ls, at), oldest, at, freed + (set n | n in ls[at].nodes), count + |ls[at].nodes|)
      else SweptTo(was, ls, oldest, at + 1, freed, count)
  {
    RoundSplits(ls, at, oldest, []);
    if Older(ls[at].epoch, oldest) {
      assert Old(ls[at..], oldest) == ls[at].nodes + Old(Without(ls, at)[at..], oldest);
    }
  }

  lemma SweepMore(was: seq<Label>, ls: seq<Label>, oldest: Option<nat>, at: nat, freed: set<nat>, count: nat,
        more: set<nat>)
    requires SweptTo(was, ls, oldest, at, freed, count) && freed <= more
    ensures SweptTo(was, ls, oldest, at, more, count)
  {
  }

  // ---- what was looked at ----

  lemma LeastStays(states: seq<State>, steps: seq<Step>, t: nat, r: nat, i: nat, oldest: Option<nat>)
    requires |states| == |steps| + 1 && i < |steps| && LeastSeen(states, steps, t, r, i, oldest)
    requires !(steps[i].Look? && steps[i].t == t)
    ensures LeastSeen(states, steps, t, r, i + 1, oldest)
  {
    hide AtMost, Local;
    forall l: nat, u: nat | LookedAt(steps, t, r, i + 1, l, u) ensures AtMost(oldest, Local(states[l], u)) {
      assert LookedAt(steps, t, r, i, l, u);
    }
    if oldest.Some? {
      var l: nat, u: nat :| LookedAt(steps, t, r, i, l, u) && Local(states[l], u) == oldest;
      assert LookedAt(steps, t, r, i + 1, l, u);
    }
  }

  lemma LeastLooks(states: seq<State>, steps: seq<Step>, t: nat, r: nat, i: nat, v: nat, oldest: Option<nat>)
    requires |states| == |steps| + 1 && r < i < |steps| && LeastSeen(states, steps, t, r, i, oldest)
    requires steps[i] == Look(t, v)
    ensures LeastSeen(states, steps, t, r, i + 1, Min(oldest, Local(states[i], v)))
  {
    hide Local;
    var least := Min(oldest, Local(states[i], v));
    assert LookedAt(steps, t, r, i + 1, i, v);
    forall l: nat, u: nat | LookedAt(steps, t, r, i + 1, l, u) ensures AtMost(least, Local(states[l], u)) {
      if l < i { assert LookedAt(steps, t, r, i, l, u); }
    }
    if oldest.Some? {
      var l: nat, u: nat :| LookedAt(steps, t, r, i, l, u) && Local(states[l], u) == oldest;
      assert LookedAt(steps, t, r, i + 1, l, u);
    }
  }

  lemma SeenGrows(steps: seq<Step>, t: nat, r: nat, i: nat, all: set<nat>, todo: set<nat>)
    requires r < i < |steps| && SeenBut(steps, t, r, i, all, todo)
    ensures SeenBut(steps, t, r, i + 1, all, todo)
    ensures steps[i].Look? && steps[i].t == t ==> SeenBut(steps, t, r, i + 1, all, todo - {steps[i].u})
  {
    forall u: nat | LookedSome(steps, t, r, i, u) ensures LookedSome(steps, t, r, i + 1, u) {
      var l: nat :| LookedAt(steps, t, r, i, l, u);
      assert LookedAt(steps, t, r, i + 1, l, u);
    }
    if steps[i].Look? && steps[i].t == t { assert LookedAt(steps, t, r, i + 1, i, steps[i].u); }
  }

  // ---- the whole cleanup ----

  /** How far the cleanup that step r begins has come in state i. */
  ghost predicate Cleans(states: seq<State>, steps: seq<Step>, t: nat, r: nat, i: nat)
    requires |states| == |steps| + 1 && r < i < |states|
  {
    var s, s0 := states[i], states[r];
    match Pc(s, t)
    case Scan(todo, oldest) =>
      && Labels(s, t) == Labels(s0, t) && Deleted(s, t) == Deleted(s0, t)
      && SeenBut(steps, t, r, i, s0.pc.Keys, todo) && LeastSeen(states, steps, t, r, i, oldest)
    case Sweep(oldest, at) =>
      && Deleted(s, t) >= Deleted(s0, t)
      && SweptTo(Labels(s0, t), Labels(s, t), oldest, at, s.freed, Deleted(s, t) - Deleted(s0, t))
      && SeenBut(steps, t, r, i, s0.pc.Keys, {}) && LeastSeen(states, steps, t, r, i, oldest)
    case Out => exists oldest :: Cleaned(states, steps, t, r, i, oldest)
    case _ => false
  }

  /**
   * The cleanup is done.  It looked at every thread's epoch and kept the least; the labels older
   * than that are gone, what they held is freed, and every other label is as it was.
   */
  ghost predicate Cleaned(states: seq<State>, steps: seq<Step>, t: nat, r: nat, i: nat, oldest: Option<nat>)
    requires |states| == |steps| + 1 && r < i < |states|
  {
    var s, s0 := states[i], states[r];
    && (forall u: nat :: u in s0.pc ==> LookedSome(steps, t, r, i, u))
    && LeastSeen(states, steps, t, r, i, oldest)
    && Labels(s, t) == Young(Labels(s0, t), oldest)
    && (forall n: nat :: n in Old(Labels(s0, t), oldest) ==> n in s.freed)
    && Deleted(s, t) == Deleted(s0, t) + |Old(Labels(s0, t), oldest)|
  }

  lemma CleanupBegins(gc: nat, states: seq<State>, steps: seq<Step>, t: nat, r: nat)
    requires IsRun(gc, states, steps) && r < |steps| && steps[r] == Retreat(t)
    ensures Cleans(states, steps, t, r, r + 1)
  {
    assert Enabled(states[r], steps[r]) && states[r + 1] == Apply(gc, states[r], steps[r]);
    assert Pc(states[r + 1], t) == Scan(states[r].pc.Keys, None);
  }

  /** A step of another thread. */
  lemma CleanupWaits(gc: nat, states: seq<State>, steps: seq<Step>, t: nat, r: nat, i: nat)
    requires IsRun(gc, states, steps) && r < i < |steps| && Cleans(states, steps, t, r, i) && steps[i].t != t
    ensures Cleans(states, steps, t, r, i + 1)
  {
    hide Apply, Enabled, Init, LeastSeen, SweptTo, Pc, Labels, Deleted, LookedSome;
    OthersLeave(gc, states[i], steps[i], t);
    var s, s0, p := states[i], states[r], Pc(states[i], t);
    if p.Scan? {
      SeenGrows(steps, t, r, i, s0.pc.Keys, p.todo);
      LeastStays(states, steps, t, r, i, p.oldest);
    } else if p.Sweep? {
      SeenGrows(steps, t, r, i, s0.pc.Keys, {});
      LeastStays(states, steps, t, r, i, p.oldest);
      SweepMore(Labels(s0, t), Labels(s, t), p.oldest, p.at, s.freed, Deleted(s, t) - Deleted(s0, t),
        states[i + 1].freed);
    } else {
      var oldest :| Cleaned(states, steps, t, r, i, oldest);
      SeenGrows(steps, t, r, i, s0.pc.Keys, {});
      LeastStays(states, steps, t, r, i, oldest);
      assert Cleaned(states, steps, t, r, i + 1, oldest);
    }
  }

  lemma CleanupLooks(gc: nat, states: seq<State>, steps: seq<Step>, t: nat, r: nat, i: nat)
    requires IsRun(gc, states, steps) && r < i < |steps| && Cleans(states, steps, t, r, i) && steps[i].t == t
    requires Pc(states[i], t).Scan?
    ensures Cleans(states, steps, t, r, i + 1)
  {
    hide Apply, Enabled, Init, LeastSeen, SweptTo, Pc, Labels, Deleted, LookedSome, Min, Local;
    var s, s0, e, p := states[i], states[r], steps[i], Pc(states[i], t);
    LookStep(gc, s, e, t);
    SeenGrows(steps, t, r, i, s0.pc.Keys, p.todo);
    if e.Look? {
      LeastLooks(states, steps, t, r, i, e.u, p.oldest);
    } else {
      LeastStays(states, steps, t, r, i, p.oldest);
      SweepBegins(Labels(s, t), p.oldest, states[i + 1].freed);
    }
  }

  lemma ReapStep(s: State, t: nat)
    requires Pc(s, t).Sweep?
    ensures var s', p, ls := Reap(s, t), Pc(s, t), Labels(s, t);
      if p.at < |ls| && Older(ls[p.at].epoch, p.oldest)
      then
        && Pc(s', t) == p && Labels(s', t) == Without(ls, p.at)
        && s'.freed == s.freed + (set n | n in ls[p.at].nodes)
        && Deleted(s', t) == Deleted(s, t) + |ls[p.at].nodes|
      else
        && Pc(s', t) == (if p.at >= |ls| then Out else Sweep(p.oldest, p.at + 1))
        && Labels(s', t) == ls && s'.freed == s.freed && Deleted(s', t) == Deleted(s, t)
  {
  }

  lemma CleanupSweeps(gc: nat, states: seq<State>, steps: seq<Step>, t: nat, r: nat, i: nat)
    requires IsRun(gc, states, steps) && r < i < |steps| && Cleans(states, steps, t, r, i) && steps[i] == Clean(t)
    requires Pc(states[i], t).Sweep?
    ensures Cleans(states, steps, t, r, i + 1)
  {
    hide Enabled, Reap, Init, LeastSeen, SweptTo, Pc, Labels, Deleted, LookedSome, Young, Old, Without, Older;
    var s, s0, p := states[i], states[r], Pc(states[i], t);
    var ls, was, count := Labels(s, t), Labels(s0, t), Deleted(s, t) - Deleted(s0, t);
    assert states[i + 1] == Apply(gc, s, steps[i]) == Reap(s, t);
    hide Apply;
    ReapStep(s, t);
    SeenGrows(steps, t, r, i, s0.pc.Keys, {});
    LeastStays(states, steps, t, r, i, p.oldest);
    if p.at < |ls| {
      SweepGoesOn(was, ls, p.oldest, p.at, s.freed, count);
    } else {
      SweepEnds(was, ls, p.oldest, p.at, s.freed, count);
      assert Cleaned(states, steps, t, r, i + 1, p.oldest);
    }
  }

  lemma {:induction false} CleanupGoes(gc: nat, states: seq<State>, steps: seq<Step>, t: nat, r: nat, i: nat)
    requires IsRun(gc, states, steps) && SameCleanup(steps, t, r, i)
    ensures Cleans(states, steps, t, r, i)
    decreases i
  {
    hide Apply, Cleans, Init;
    if i == r + 1 {
      CleanupBegins(gc, states, steps, t, r);
    } else {
      CleanupGoes(gc, states, steps, t, r, i - 1);
      CleanupStep(gc, states, steps, t, r, i - 1);
    }
  }

  lemma CleanupStep(gc: nat, states: seq<State>, steps: seq<Step>, t: nat, r: nat, i: nat)
    requires IsRun(gc, states, steps) && r < i < |steps| && Cleans(states, steps, t, r, i) && steps[i] != Load(t)
    ensures Cleans(states, steps, t, r, i + 1)
  {
    var p := Pc(states[i], t);
    assert p.Scan? || p.Sweep? || p.Out?;
    assert Enabled(states[i], steps[i]);
    hide Apply, Cleans, Init;
    if steps[i].t != t { CleanupWaits(gc, states, steps, t, r, i); }
    else if p.Scan? { CleanupLooks(gc, states, steps, t, r, i); }
    else { CleanupSweeps(gc, states, steps, t, r, i); }
  }

  /**
   * A cleanup that has come to its end freed exactly the labels older than the least of the local
   * epochs it met, and looked at the epoch of every thread.
   */
  lemma CleanupIsExact(gc: nat, states: seq<State>, steps: seq<Step>, t: nat, r: nat, i: nat)
    requires IsRun(gc, states, steps) && SameCleanup(steps, t, r, i) && Pc(states[i], t).Out?
    ensures exists oldest :: Cleaned(states, steps, t, r, i, oldest)
  {
    hide Cleaned;
    CleanupGoes(gc, states, steps, t, r, i);
  }
}
