/**
 * The non-blocking array stack: the top word carries the newest element, which whoever comes next
 * writes to its slot.  Any number of threads; one step is one atomic load or compare-and-swap.
 */
module ArrayStack {
  import opened Common

  datatype Node = Node(value: nat, counter: nat)

  datatype Top = Top(value: nat, index: nat, counter: nat)

  datatype Op = Push(val: nat) | Pop

  datatype PC =
    | Idle
    | LoadTop(op: Op)
    | FinLoad(op: Op, was: Top)
    | FinCas(op: Op, was: Top, v: nat)
    | Peek(op: Op, was: Top)
    | Swing(op: Op, was: Top, near: Node)
    | Done(result: Option<nat>)
    | Full

  datatype State = State(top: Top, nodes: seq<Node>, pc: map<nat, PC>)

  datatype Step = Begin(t: nat, op: Op) | Run(t: nat, fail: bool)

  function At(s: State, i: nat): Node { if i < |s.nodes| then s.nodes[i] else Node(0, 0) }

  /** The top word a push or a pop tries to install. */
  function NewTop(op: Op, was: Top, near: Node): Top {
    if op.Push? then Top(op.val, was.index + 1, near.counter + 1)
    else Top(near.value, if was.index > 0 then was.index - 1 else 0, near.counter + 1)
  }

  /** finish: the compare-and-swap expects the value seen and the counter before. */
  function Finish(s: State, was: Top, v: nat): State {
    if was.index < |s.nodes| && was.counter > 0 && s.nodes[was.index] == Node(v, was.counter - 1)
    then s.(nodes := s.nodes[was.index := Node(was.value, was.counter)]) else s
  }

  function Act(s: State, t: nat, fail: bool): State
    requires t in s.pc
  {
    match s.pc[t]
    case LoadTop(op) => s.(pc := s.pc[t := FinLoad(op, s.top)])
    case FinLoad(op, was) => s.(pc := s.pc[t := FinCas(op, was, At(s, was.index).value)])
    case FinCas(op, was, v) => Finish(s, was, v).(pc := s.pc[t := Peek(op, was)])
    case Peek(op, was) =>
      if op.Push? then
        if was.index + 1 >= |s.nodes| then s.(pc := s.pc[t := Full])
        else s.(pc := s.pc[t := Swing(op, was, At(s, was.index + 1))])
      else if was.index == 0 then s.(pc := s.pc[t := Done(None)])
      else s.(pc := s.pc[t := Swing(op, was, At(s, was.index - 1))])
    case Swing(op, was, near) =>
      if !fail && s.top == was
      then s.(top := NewTop(op, was, near), pc := s.pc[t := Done(if op.Pop? then Some(was.value) else None)])
      else s.(pc := s.pc[t := LoadTop(op)])
    case _ => s
  }

  predicate Enabled(s: State, e: Step) {
    match e
    case Begin(t, _) => t in s.pc && (s.pc[t].Idle? || s.pc[t].Done?)
    case Run(t, _) => t in s.pc && !s.pc[t].Idle? && !s.pc[t].Done? && !s.pc[t].Full?
  }

  function Apply(s: State, e: Step): State
    requires Enabled(s, e)
  {
    match e
    case Begin(t, op) => s.(pc := s.pc[t := LoadTop(op)])
    case Run(t, fail) => Act(s, t, fail)
  }

  predicate Init(s: State) {
    && |s.nodes| > 0 && s.top == Top(0, 0, 0) && (forall i :: 0 <= i < |s.nodes| ==> s.nodes[i] == Node(0, 0))
    && forall t: nat :: t in s.pc ==> s.pc[t].Idle?
  }

  ghost predicate IsRun(states: seq<State>, steps: seq<Step>) {
    && |states| == |steps| + 1 && Init(states[0])
    && forall i :: 0 <= i < |steps| ==> Enabled(states[i], steps[i]) && states[i + 1] == Apply(states[i], steps[i])
  }

  // ---- what the stack holds ----

  /** The values of slots 1 .. n. */
  function Below(nodes: seq<Node>, n: nat): (r: seq<nat>)
    ensures |r| == n
  {
    if n == 0 then [] else Below(nodes, n - 1) + [if n < |nodes| then nodes[n].value else 0]
  }

  /** The stack from the bottom up: finished slots below the top, then the element in the top word. */
  function Contents(s: State): seq<nat> {
    if s.top.index == 0 then [] else Below(s.nodes, s.top.index - 1) + [s.top.value]
  }

  datatype Effect = Nothing | Pushed(val: nat) | Popped

  /** The operation a step performs on the abstract stack: a successful swing of the top word. */
  function EffectOf(s: State, e: Step): Effect {
    if e.Run? && !e.fail && e.t in s.pc && s.pc[e.t].Swing? && s.top == s.pc[e.t].was
    then if s.pc[e.t].op.Push? then Pushed(s.pc[e.t].op.val) else Popped
    else Nothing
  }

  function Do(f: Effect, c: seq<nat>): seq<nat> {
    match f
    case Nothing => c
    case Pushed(v) => c + [v]
    case Popped => if c == [] then [] else c[..|c| - 1]
  }

  // ---- the invariant ----

  /** The largest counter slot i has been top with. */
  function Latest(top: Top, nodes: seq<Node>, i: nat): nat
    requires i < |nodes|
  {
    if top.index == i then top.counter else nodes[i].counter
  }

  /** A top word once loaded: its slot has caught up to within one, and the word never comes back. */
  predicate Seen(top: Top, nodes: seq<Node>, was: Top) {
    && was.index < |nodes| && was.counter <= Latest(top, nodes, was.index)
      && was.counter <= nodes[was.index].counter + 1
    && (top.index == was.index && top.counter == was.counter ==> top == was)
  }

  predicate PcOk(top: Top, nodes: seq<Node>, p: PC) {
    match p
    case FinLoad(_, was) => Seen(top, nodes, was)
    case FinCas(_, was, v) => Seen(top, nodes, was)
      && (nodes[was.index].counter + 1 == was.counter ==> nodes[was.index].value == v)
    case Peek(_, was) => Seen(top, nodes, was) && was.counter <= nodes[was.index].counter
    case Swing(op, was, near) =>
      && Seen(top, nodes, was) && was.counter <= nodes[was.index].counter
      && (if op.Push? then was.index + 1 < |nodes| && (top == was ==> nodes[was.index + 1] == near)
          else was.index > 0 && (top == was ==> nodes[was.index - 1] == near))
    case _ => true
  }

  predicate TopOk(top: Top, nodes: seq<Node>) {
    && top.index < |nodes| && nodes[top.index].counter <= top.counter <= nodes[top.index].counter + 1
    && (top.counter == nodes[top.index].counter ==> top.value == nodes[top.index].value || top.index == 0)
  }

  ghost predicate Inv(s: State) {
    TopOk(s.top, s.nodes) && forall t: nat :: t in s.pc ==> PcOk(s.top, s.nodes, s.pc[t])
  }

  /** Moving only one thread. */
  lemma MoveKeeps(s: State, t: nat, p: PC)
    requires Inv(s) && t in s.pc && PcOk(s.top, s.nodes, p)
    ensures Inv(s.(pc := s.pc[t := p]))
  {
  }

  /** A finish that takes effect writes the present top's element to the present top's slot. */
  lemma FinishIsCurrent(s: State, was: Top, v: nat)
    requires Inv(s) && Seen(s.top, s.nodes, was) && Finish(s, was, v) != s
    ensures s.top == was && s.nodes[was.index].counter + 1 == was.counter
    ensures Finish(s, was, v) == s.(nodes := s.nodes[s.top.index := Node(s.top.value, s.top.counter)])
  {
  }

  lemma FinishKeeps(s: State, t: nat)
    requires Inv(s) && t in s.pc && s.pc[t].FinCas?
    ensures Inv(Act(s, t, false)) && Act(s, t, true) == Act(s, t, false)
    ensures Contents(Act(s, t, false)) == Contents(s)
  {
    var p := s.pc[t];
    var s1 := Finish(s, p.was, p.v);
    if s1 != s {
      FinishIsCurrent(s, p.was, p.v);
      forall u: nat | u in s.pc ensures PcOk(s1.top, s1.nodes, s.pc[u]) { assert PcOk(s.top, s.nodes, s.pc[u]); }
      if s.top.index > 0 { BelowSame(s.nodes, s1.nodes, s.top.index - 1); }
    }
    MoveKeeps(s1, t, Peek(p.op, p.was));
  }

  lemma {:induction false} BelowSame(nodes: seq<Node>, nodes': seq<Node>, n: nat)
    requires |nodes'| == |nodes| && forall i :: 0 <= i <= n && i < |nodes| ==> nodes'[i] == nodes[i]
    ensures Below(nodes', n) == Below(nodes, n)
  {
    if n > 0 { BelowSame(nodes, nodes', n - 1); }
  }

  /** A swing that succeeds pushes or pops exactly one element, and a pop returns the one it removes. */
  lemma SwingKeeps(s: State, t: nat)
    requires Inv(s) && t in s.pc && s.pc[t].Swing? && s.top == s.pc[t].was
    ensures var s', p := Act(s, t, false), s.pc[t];
      && Inv(s')
      && (p.op.Push? ==> Contents(s') == Contents(s) + [p.op.val])
      && (p.op.Pop? ==>
        Contents(s) != [] && Contents(s') == Contents(s)[..|Contents(s)| - 1]
        && s'.pc[t] == Done(Some(Contents(s)[|Contents(s)| - 1])))
  {
    var s', p := Act(s, t, false), s.pc[t];
    forall u: nat | u in s.pc ensures PcOk(s'.top, s'.nodes, s.pc[u]) {
      assert PcOk(s.top, s.nodes, s.pc[u]);
      assert PcOk(s.top, s.nodes, p);
    }
    MoveKeeps(s'.(pc := s.pc), t, s'.pc[t]);
  }

  lemma StepKeeps(s: State, e: Step)
    requires Inv(s) && Enabled(s, e)
    ensures Inv(Apply(s, e)) && Contents(Apply(s, e)) == Do(EffectOf(s, e), Contents(s))
  {
    hide Inv, Act;
    match e {
      case Begin(t, op) => MoveKeeps(s, t, LoadTop(op));
      case Run(t, fail) =>
        if s.pc[t].FinCas? { FinishKeeps(s, t); }
        else if s.pc[t].Swing? && !fail && s.top == s.pc[t].was { SwingKeeps(s, t); }
        else { ReadKeeps(s, t, fail); }
    }
  }

  /** Loads, and swings that fail. */
  lemma ReadKeeps(s: State, t: nat, fail: bool)
    requires Inv(s) && Enabled(s, Run(t, fail)) && !s.pc[t].FinCas?
      && !(s.pc[t].Swing? && !fail && s.top == s.pc[t].was)
    ensures var s' := Act(s, t, fail); Inv(s') && s'.top == s.top && s'.nodes == s.nodes
  {
    assert PcOk(s.top, s.nodes, s.pc[t]);
    var p := Act(s, t, fail).pc[t];
    assert PcOk(s.top, s.nodes, p);
    hide PcOk, TopOk;
    MoveKeeps(s, t, p);
  }

  lemma {:induction false} RunInv(states: seq<State>, steps: seq<Step>, i: nat)
    requires IsRun(states, steps) && i < |states|
    ensures Inv(states[i])
  {
    if i > 0 { RunInv(states, steps, i - 1); StepKeeps(states[i - 1], steps[i - 1]); }
  }

  /** In every run every step acts on the stack like the sequential push or pop it stands for. */
  lemma StackIsSequential(states: seq<State>, steps: seq<Step>, i: nat)
    requires IsRun(states, steps) && i < |steps|
    ensures Contents(states[i + 1]) == Do(EffectOf(states[i], steps[i]), Contents(states[i]))
    ensures EffectOf(states[i], steps[i]).Popped? ==>
              var c := Contents(states[i]); c != [] && states[i + 1].pc[steps[i].t] == Done(Some(c[|c| - 1]))
    ensures steps[i].Run? && states[i].pc[steps[i].t] == LoadTop(Pop) && states[i].top.index == 0 ==>
      Contents(states[i]) == []
  {
    RunInv(states, steps, i);
    StepKeeps(states[i], steps[i]);
    var s, e := states[i], steps[i];
    if EffectOf(s, e).Popped? { SwingKeeps(s, e.t); }
  }

  predicate Starts(e: Step, t: nat) { e.Begin? && e.t == t }

  /** Thread t begins no operation between steps j and i: they belong to the same call. */
  ghost predicate SameCall(steps: seq<Step>, t: nat, j: nat, i: nat) {
    j < i <= |steps| && forall l :: j < l < i ==> !Starts(steps[l], t)
  }

  /** The word a thread works with was the top word at its last load, in the same call. */
  lemma {:induction false} LoadedAt(states: seq<State>, steps: seq<Step>, i: nat, t: nat) returns (j: nat)
    requires IsRun(states, steps) && i < |states| && t in states[i].pc
      && (states[i].pc[t].FinLoad? || states[i].pc[t].FinCas? || states[i].pc[t].Peek?)
    ensures SameCall(steps, t, j, i) && steps[j].Run? && steps[j].t == t && t in states[j].pc
      && states[j].pc[t] == LoadTop(states[i].pc[t].op) && states[j].top == states[i].pc[t].was
  {
    var s, e := states[i - 1], steps[i - 1];
    assert t in s.pc;
    if e.Run? && e.t == t && s.pc[t].LoadTop? { j := i - 1; } else { j := LoadedAt(states, steps, i - 1, t); }
  }

  /** A pop that answers "empty" had, in the same call, loaded the top word of an empty stack. */
  lemma EmptyWasEmpty(states: seq<State>, steps: seq<Step>, i: nat, t: nat)
    requires IsRun(states, steps) && i < |steps| && steps[i].Run? && steps[i].t == t && states[i].pc[t].Peek?
      && states[i].pc[t].op.Pop?
    requires states[i + 1].pc[t] == Done(None)
    ensures exists j: nat :: SameCall(steps, t, j, i) && LoadsTop(states[j], steps[j], t) && Contents(states[j]) == []
  {
    var j := LoadedAt(states, steps, i, t);
    assert LoadsTop(states[j], steps[j], t);
  }

  predicate LoadsTop(s: State, e: Step, t: nat) { e.Run? && e.t == t && t in s.pc && s.pc[t] == LoadTop(Pop) }

  // ---- whole calls ----

  predicate Runs(e: Step, t: nat) { e.Run? && e.t == t }

  /** Thread t's own steps from a up to b leave the stack alone. */
  ghost predicate Still(states: seq<State>, steps: seq<Step>, t: nat, a: nat, b: nat) {
    && |states| == |steps| + 1 && b <= |steps|
    && forall l :: a <= l < b && Runs(steps[l], t) ==> Contents(states[l + 1]) == Contents(states[l])
  }

  /** Step l of thread t performs op on the stack, with answer r. */
  ghost predicate Performs(states: seq<State>, steps: seq<Step>, t: nat, op: Op, l: nat, r: Option<nat>) {
    && |states| == |steps| + 1 && l < |steps| && Runs(steps[l], t)
    && var c, c' := Contents(states[l]), Contents(states[l + 1]);
    match op
    case Push(v) => r == None && c' == c + [v]
    case Pop => c != [] && r == Some(c[|c| - 1]) && c' == c[..|c| - 1]
  }

  /** It does so once, and leaves the stack alone otherwise. */
  ghost predicate PerformsOnce(states: seq<State>, steps: seq<Step>, t: nat, op: Op, j: nat, i: nat, r: Option<nat>) {
    exists l: nat ::
      j < l < i && Performs(states, steps, t, op, l, r) && Still(states, steps, t, j + 1, l)
        && Still(states, steps, t, l + 1, i)
  }

  /** Thread t took a step, between j and i, while the stack had n elements. */
  ghost predicate Met(states: seq<State>, steps: seq<Step>, t: nat, j: nat, i: nat, n: nat) {
    && |states| == |steps| + 1 && i <= |steps|
    && exists l: nat :: j < l < i && Runs(steps[l], t) && |Contents(states[l])| == n
  }

  /** Where the call of op that started at step j stands at state i. */
  ghost predicate CallAt(states: seq<State>, steps: seq<Step>, t: nat, op: Op, j: nat, i: nat) {
    && |states| == |steps| + 1 && j < i <= |steps| && t in states[i].pc
    && match states[i].pc[t]
       case Idle => false
       case Done(r) =>
         || PerformsOnce(states, steps, t, op, j, i, r)
         || (op.Pop? && r.None? && Still(states, steps, t, j + 1, i) && Met(states, steps, t, j, i, 0))
       case Full =>
         op.Push? && Still(states, steps, t, j + 1, i) && |states[i].nodes| > 0
           && Met(states, steps, t, j, i, |states[i].nodes| - 1)
       case p => p.op == op && Still(states, steps, t, j + 1, i)
  }

  /**
   * A push that is done has put its value on top, once; a pop that is done has taken the top off once
   * and answers with it, or has found the stack empty and left it alone; a call that is not done has
   * done nothing yet.
   */
  lemma {:induction false} CallIsSequential(states: seq<State>, steps: seq<Step>, t: nat, op: Op, j: nat, i: nat)
    requires IsRun(states, steps) && SameCall(steps, t, j, i) && steps[j] == Begin(t, op)
    ensures Contents(states[0]) == [] && CallAt(states, steps, t, op, j, i)
    ensures Contents(states[j + 1]) == Contents(states[j])
    decreases i
  {
    hide Contents, Apply, Enabled;
    InitEmpty(states, steps);
    StackIsSequential(states, steps, j);
    if i == j + 1 {
      assert states[i].pc[t] == LoadTop(op) by { BeginsAt(states[j], t, op); }
    } else {
      CallIsSequential(states, steps, t, op, j, i - 1);
      CallGoes(states, steps, t, op, j, i - 1);
    }
  }

  lemma InitEmpty(states: seq<State>, steps: seq<Step>)
    requires IsRun(states, steps)
    ensures Contents(states[0]) == []
  {
  }

  lemma BeginsAt(s: State, t: nat, op: Op)
    requires Enabled(s, Begin(t, op))
    ensures t in Apply(s, Begin(t, op)).pc && Apply(s, Begin(t, op)).pc[t] == LoadTop(op)
  {
  }

  lemma OthersStep(s: State, e: Step, t: nat)
    requires Enabled(s, e) && t in s.pc && !Runs(e, t) && !Starts(e, t)
    ensures t in Apply(s, e).pc && Apply(s, e).pc[t] == s.pc[t] && |Apply(s, e).nodes| == |s.nodes|
  {
  }

  /** One step of the thread itself. */
  lemma OwnStep(s: State, e: Step, t: nat)
    requires Enabled(s, e) && Runs(e, t) && t in s.pc && !s.pc[t].Idle? && !s.pc[t].Done? && !s.pc[t].Full?
    ensures
      var s', p := Apply(s, e), s.pc[t];
      && t in s'.pc && |s'.nodes| == |s.nodes|
      && if EffectOf(s, e) != Nothing then
           && EffectOf(s, e) == (if p.op.Push? then Pushed(p.op.val) else Popped)
           && s'.pc[t].Done? && (p.op.Push? ==> s'.pc[t].result.None?)
         else if s'.pc[t].Done? then p == Peek(Pop, p.was) && p.was.index == 0 && s'.pc[t].result.None?
         else if s'.pc[t].Full? then p.Peek? && p.op.Push? && p.was.index + 1 >= |s.nodes|
         else !s'.pc[t].Idle? && s'.pc[t].op == p.op
  {
  }

  lemma CallGoes(states: seq<State>, steps: seq<Step>, t: nat, op: Op, j: nat, i: nat)
    requires IsRun(states, steps) && SameCall(steps, t, j, i + 1) && steps[j].Begin? && steps[j].t == t
    requires CallAt(states, steps, t, op, j, i)
    ensures CallAt(states, steps, t, op, j, i + 1)
  {
    hide Contents, Apply, Enabled, Still, Performs, Met;
    var s, e := states[i], steps[i];
    if Runs(e, t) {
      assert !s.pc[t].Idle? && !s.pc[t].Done? && !s.pc[t].Full? by { RunsBusy(s, e, t); }
      OwnStep(s, e, t);
      StackIsSequential(states, steps, i);
      if EffectOf(s, e) == Nothing {
        StillOn(states, steps, t, j + 1, i);
        if s.pc[t].Peek? { MetAt(states, steps, t, j, i); }
      } else {
        assert Performs(states, steps, t, op, i, states[i + 1].pc[t].result) by { DoesPerform(states, steps, t, i); }
        NoneStill(states, steps, t, i + 1);
      }
    } else {
      OthersStep(s, e, t);
      OthersCall(states, steps, t, op, j, i);
    }
  }

  lemma RunsBusy(s: State, e: Step, t: nat)
    requires Enabled(s, e) && Runs(e, t)
    ensures t in s.pc && !s.pc[t].Idle? && !s.pc[t].Done? && !s.pc[t].Full?
  {
  }

  lemma DoesPerform(states: seq<State>, steps: seq<Step>, t: nat, i: nat)
    requires IsRun(states, steps) && i < |steps| && Runs(steps[i], t) && t in states[i].pc
      && EffectOf(states[i], steps[i]) != Nothing
    ensures t in states[i + 1].pc && states[i + 1].pc[t].Done? && states[i].pc[t].Swing?
    ensures Performs(states, steps, t, states[i].pc[t].op, i, states[i + 1].pc[t].result)
  {
    StackIsSequential(states, steps, i);
    assert states[i + 1] == Apply(states[i], steps[i]);
    hide Contents;
  }

  /** The word the thread tests was the top word at a moment of the same call. */
  lemma MetAt(states: seq<State>, steps: seq<Step>, t: nat, j: nat, i: nat)
    requires IsRun(states, steps) && SameCall(steps, t, j, i + 1) && steps[j].Begin? && steps[j].t == t && j < i
    requires t in states[i].pc && states[i].pc[t].Peek?
    ensures Met(states, steps, t, j, i + 1, states[i].pc[t].was.index)
    ensures states[i].pc[t].was.index < |states[i].nodes|
  {
    hide Apply, Enabled;
    var l := LoadedAt(states, steps, i, t);
    RunInv(states, steps, i);
    assert PcOk(states[i].top, states[i].nodes, states[i].pc[t]);
    assert l > j;
    assert Runs(steps[l], t) && |Contents(states[l])| == states[i].pc[t].was.index;
  }

  lemma NoneStill(states: seq<State>, steps: seq<Step>, t: nat, a: nat)
    requires |states| == |steps| + 1 && a <= |steps|
    ensures Still(states, steps, t, a, a)
  {
  }

  lemma StillOn(states: seq<State>, steps: seq<Step>, t: nat, a: nat, b: nat)
    requires Still(states, steps, t, a, b) && b < |steps|
    requires Runs(steps[b], t) ==> Contents(states[b + 1]) == Contents(states[b])
    ensures Still(states, steps, t, a, b + 1)
  {
    hide Contents;
  }

  /** Steps of others do not matter to the call. */
  lemma OthersCall(states: seq<State>, steps: seq<Step>, t: nat, op: Op, j: nat, i: nat)
    requires CallAt(states, steps, t, op, j, i) && i < |steps| && !Runs(steps[i], t)
    requires t in states[i + 1].pc && states[i + 1].pc[t] == states[i].pc[t]
      && |states[i + 1].nodes| == |states[i].nodes|
    ensures CallAt(states, steps, t, op, j, i + 1)
  {
    hide Contents, Still, Performs;
    var p := states[i].pc[t];
    if p.Done? && PerformsOnce(states, steps, t, op, j, i, p.result) {
      var l: nat :| j < l < i && Performs(states, steps, t, op, l, p.result) && Still(states, steps, t, j + 1, l)
        && Still(states, steps, t, l + 1, i);
      StillOn(states, steps, t, l + 1, i);
    } else {
      StillOn(states, steps, t, j + 1, i);
    }
  }

  /** Counters of slots only grow, and a helper's write takes effect only for the present top. */
  lemma CountersGrow(states: seq<State>, steps: seq<Step>, i: nat, k: nat)
    requires IsRun(states, steps) && i < |steps| && k < |states[i].nodes|
    ensures k < |states[i + 1].nodes| && states[i].nodes[k].counter <= states[i + 1].nodes[k].counter
    ensures states[i + 1].nodes[k] != states[i].nodes[k] ==>
      states[i].top.index == k && states[i + 1].nodes[k] == Node(states[i].top.value, states[i].top.counter)
  {
    RunInv(states, steps, i);
    var s, e := states[i], steps[i];
    if e.Run? && s.pc[e.t].FinCas? {
      var p := s.pc[e.t];
      assert PcOk(s.top, s.nodes, p);
      if Finish(s, p.was, p.v) != s { FinishIsCurrent(s, p.was, p.v); }
    }
  }
}
