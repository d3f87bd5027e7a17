/**
 * The non-blocking circular queue: the rear word carries the newest element, which whoever comes
 * next writes to its slot.  Any number of threads; one step is one atomic load or compare-and-swap.
 */
module ArrayQueue {
  import opened Common

  datatype Node = Node(value: nat, counter: nat)

  datatype Rear = Rear(value: nat, index: nat, counter: nat)

  datatype Front = Front(index: nat, counter: nat)

  datatype PC =
    | Idle
    // push
    | PushRear(val: nat)
    | PushFront(val: nat, r: Rear)
    | PushAgain(val: nat, r: Rear, f: Front)
    | PushFinLoad(val: nat, r: Rear, f: Front)
    | PushFinCas(val: nat, r: Rear, f: Front, v: nat)
    | PushPeek(val: nat, r: Rear, f: Front)
    | PushCas(val: nat, r: Rear, f: Front, c: nat)
    // pop
    | PopFront
    | PopRear(f: Front)
    | PopAgain(f: Front, r: Rear)
    | PopFinLoad(f: Front, r: Rear)
    | PopFinCas(f: Front, r: Rear, v: nat)
    | PopRead(f: Front, r: Rear)
    | PopCas(f: Front, r: Rear, ret: nat)
    | Done(result: Option<nat>)
    | Full

  datatype State = State(rear: Rear, front: Front, nodes: seq<Node>, pc: map<nat, PC>)

  datatype Step = Push(t: nat, val: nat) | Pop(t: nat) | Run(t: nat, fail: bool)

  /** (i + 1) % size, for a slot i. */
  function Next(i: nat, n: nat): nat { if i + 1 >= n then 0 else i + 1 }

  function At(s: State, i: nat): Node { if i < |s.nodes| then s.nodes[i] else Node(0, 0) }

  function Finish(s: State, was: Rear, v: nat): State {
    if was.index < |s.nodes| && was.counter > 0 && s.nodes[was.index] == Node(v, was.counter - 1)
    then s.(nodes := s.nodes[was.index := Node(was.value, was.counter)]) else s
  }

  function Go(s: State, t: nat, p: PC): State { s.(pc := s.pc[t := p]) }

  function ActPush(s: State, t: nat, fail: bool): State
    requires t in s.pc
  {
    var n := |s.nodes|;
    match s.pc[t]
    case PushRear(val) => Go(s, t, PushFront(val, s.rear))
    case PushFront(val, r) => Go(s, t, PushAgain(val, r, s.front))
    case PushAgain(val, r, f) => Go(s, t, if s.rear == r then PushFinLoad(val, r, f) else PushRear(val))
    case PushFinLoad(val, r, f) => Go(s, t, PushFinCas(val, r, f, At(s, r.index).value))
    case PushFinCas(val, r, f, v) => Go(Finish(s, r, v), t, PushPeek(val, r, f))
    case PushPeek(val, r, f) =>
      Go(s, t, if f.index == Next(Next(r.index, n), n) then Full
        else PushCas(val, r, f, At(s, Next(r.index, n)).counter))
    case PushCas(val, r, f, c) =>
      if !fail && s.rear == r then Go(s.(rear := Rear(val, Next(r.index, n), c + 1)), t, Done(None))
        else Go(s, t, PushRear(val))
    case _ => s
  }

  function ActPop(s: State, t: nat): State
    requires t in s.pc
  {
    var n := |s.nodes|;
    match s.pc[t]
    case PopFront => Go(s, t, PopRear(s.front))
    case PopRear(f) => Go(s, t, PopAgain(f, s.rear))
    case PopAgain(f, r) =>
      Go(s, t, if s.front != f then PopFront
               else if f.index == r.index then PopFinLoad(f, r)
               else if f.index == Next(r.index, n) then Done(None)
               else PopRead(f, r))
    case PopFinLoad(f, r) => Go(s, t, PopFinCas(f, r, At(s, r.index).value))
    case PopFinCas(f, r, v) => Go(Finish(s, r, v), t, PopRead(f, r))
    case PopRead(f, r) => Go(s, t, PopCas(f, r, At(s, f.index).value))
    case PopCas(f, r, ret) =>
      if s.front == f then Go(s.(front := Front(Next(f.index, n), f.counter + 1)), t, Done(Some(ret)))
        else Go(s, t, PopFront)
    case _ => s
  }

  predicate IsPush(p: PC) {
    p.PushRear? || p.PushFront? || p.PushAgain? || p.PushFinLoad? || p.PushFinCas? || p.PushPeek? || p.PushCas?
  }

  predicate Enabled(s: State, e: Step) {
    match e
    case Push(t, _) => t in s.pc && (s.pc[t].Idle? || s.pc[t].Done?)
    case Pop(t) => t in s.pc && (s.pc[t].Idle? || s.pc[t].Done?)
    case Run(t, _) => t in s.pc && !s.pc[t].Idle? && !s.pc[t].Done? && !s.pc[t].Full?
  }

  function Apply(s: State, e: Step): State
    requires Enabled(s, e)
  {
    match e
    case Push(t, val) => Go(s, t, PushRear(val))
    case Pop(t) => Go(s, t, PopFront)
    case Run(t, fail) => if IsPush(s.pc[t]) then ActPush(s, t, fail) else ActPop(s, t)
  }

  predicate Init(s: State) {
    && |s.nodes| >= 2 && s.rear == Rear(0, 0, 0) && s.front == Front(1, 0)
      && (forall i :: 0 <= i < |s.nodes| ==> s.nodes[i] == Node(0, 0))
    && forall t: nat :: t in s.pc ==> s.pc[t].Idle?
  }

  ghost predicate IsRun(states: seq<State>, steps: seq<Step>) {
    && |states| == |steps| + 1 && Init(states[0])
    && forall i :: 0 <= i < |steps| ==> Enabled(states[i], steps[i]) && states[i + 1] == Apply(states[i], steps[i])
  }

  // ---- what the queue holds ----

  /** The number of slots from f up to and including r, going round. */
  function Count(f: nat, r: nat, n: nat): nat {
    if f == Next(r, n) then 0 else if f <= r then r - f + 1 else if f < n then n - f + r + 1 else 0
  }

  /** The values of the k slots from f on. */
  function Values(nodes: seq<Node>, f: nat, k: nat): (s: seq<nat>)
    ensures |s| == k
    decreases k
  {
    if k == 0 then [] else [if f < |nodes| then nodes[f].value else 0] + Values(nodes, Next(f, |nodes|), k - 1)
  }

  function Size(s: State): nat { Count(s.front.index, s.rear.index, |s.nodes|) }

  /** Oldest first: finished slots, then the element in the rear word. */
  function Contents(s: State): seq<nat> {
    if Size(s) == 0 then [] else Values(s.nodes, s.front.index, Size(s) - 1) + [s.rear.value]
  }

  datatype Effect = Nothing | Pushed(val: nat) | Popped

  function EffectOf(s: State, e: Step): Effect {
    if e.Run? && e.t in s.pc then
      var p := s.pc[e.t];
      if p.PushCas? && !e.fail && s.rear == p.r then Pushed(p.val)
      else if p.PopCas? && s.front == p.f then Popped
      else Nothing
    else Nothing
  }

  function Do(f: Effect, c: seq<nat>): seq<nat> {
    match f
    case Nothing => c
    case Pushed(v) => c + [v]
    case Popped => if c == [] then [] else c[1..]
  }

  // ---- the invariant ----

  function Latest(rear: Rear, nodes: seq<Node>, i: nat): nat
    requires i < |nodes|
  {
    if rear.index == i then rear.counter else nodes[i].counter
  }

  /** A rear word once loaded: its slot has caught up to within one, and the word never comes back. */
  predicate SeenRear(rear: Rear, nodes: seq<Node>, was: Rear) {
    && was.index < |nodes| && was.counter <= Latest(rear, nodes, was.index)
      && was.counter <= nodes[was.index].counter + 1
    && (rear.index == was.index && rear.counter == was.counter ==> rear == was)
  }

  predicate SeenFront(front: Front, n: nat, was: Front) {
    was.index < n && was.counter <= front.counter && (was.counter == front.counter ==> was == front)
  }

  predicate Settled(nodes: seq<Node>, was: Rear) { was.index < |nodes| && was.counter <= nodes[was.index].counter }

  /** What a pop knows of the slot it will take: it is in the queue and finished. */
  predicate Ready(rear: Rear, front: Front, nodes: seq<Node>, f: Front)
    requires rear.index < |nodes|
  {
    front == f ==>
      && Count(f.index, rear.index, |nodes|) > 0
      && (rear.index == f.index ==> rear.counter == nodes[rear.index].counter)
  }

  predicate PcOk(rear: Rear, front: Front, nodes: seq<Node>, p: PC)
    requires rear.index < |nodes|
  {
    var n := |nodes|;
    match p
    case PushFront(_, r) => SeenRear(rear, nodes, r)
    case PushAgain(_, r, f) => SeenRear(rear, nodes, r) && Room(rear, front, n, r, f)
    case PushFinLoad(_, r, f) => SeenRear(rear, nodes, r) && Room(rear, front, n, r, f)
    case PushFinCas(_, r, f, v) => SeenRear(rear, nodes, r) && Room(rear, front, n, r, f)
      && (nodes[r.index].counter + 1 == r.counter ==> nodes[r.index].value == v)
    case PushPeek(_, r, f) => SeenRear(rear, nodes, r) && Room(rear, front, n, r, f) && Settled(nodes, r)
    case PushCas(_, r, f, c) =>
      && SeenRear(rear, nodes, r) && Room(rear, front, n, r, f) && Settled(nodes, r)
      && f.index != Next(Next(r.index, n), n) && (rear == r ==> nodes[Next(r.index, n)].counter == c)
    case PopRear(f) => SeenFront(front, n, f)
    case PopAgain(f, r) => SeenFront(front, n, f) && SeenRear(rear, nodes, r) && Behind(rear, front, n, f, r)
    case PopFinLoad(f, r) => SeenFront(front, n, f) && SeenRear(rear, nodes, r) && Behind(rear, front, n, f, r)
      && f.index == r.index
    case PopFinCas(f, r, v) =>
      && SeenFront(front, n, f) && SeenRear(rear, nodes, r) && Behind(rear, front, n, f, r) && f.index == r.index
      && (nodes[r.index].counter + 1 == r.counter ==> nodes[r.index].value == v)
    case PopRead(f, r) => SeenFront(front, n, f) && Ready(rear, front, nodes, f)
    case PopCas(f, r, ret) => SeenFront(front, n, f) && Ready(rear, front, nodes, f)
      && (front == f ==> nodes[f.index].value == ret)
    case _ => true
  }

  /** While the rear word stands still the queue only shrinks. */
  predicate Room(rear: Rear, front: Front, n: nat, r: Rear, f: Front) {
    f.index < n && (rear == r ==> Count(front.index, r.index, n) <= Count(f.index, r.index, n))
  }

  /** While the front word stands still the queue only grows; r is the rear word then, or an earlier one. */
  predicate Behind(rear: Rear, front: Front, n: nat, f: Front, r: Rear) {
    front == f ==> Count(f.index, r.index, n) <= Count(f.index, rear.index, n)
                   && (Count(f.index, r.index, n) == Count(f.index, rear.index, n) ==> rear == r)
  }

  predicate WordsOk(rear: Rear, front: Front, nodes: seq<Node>) {
    && |nodes| >= 2 && rear.index < |nodes| && front.index < |nodes|
    && nodes[rear.index].counter <= rear.counter <= nodes[rear.index].counter + 1
    && (rear.counter == nodes[rear.index].counter && Count(front.index, rear.index, |nodes|) > 0 ==>
      rear.value == nodes[rear.index].value)
  }

  ghost predicate Inv(s: State) {
    WordsOk(s.rear, s.front, s.nodes) && forall t: nat :: t in s.pc ==> PcOk(s.rear, s.front, s.nodes, s.pc[t])
  }

  lemma Counts(f: nat, r: nat, n: nat)
    requires f < n && r < n && n >= 2
    ensures Count(f, r, n) <= n - 1 && (Count(f, r, n) == n - 1 <==> f == Next(Next(r, n), n))
      && (Count(f, r, n) == 1 <==> f == r)
    ensures Count(f, r, n) < n - 1 ==> Count(f, Next(r, n), n) == Count(f, r, n) + 1
    ensures Count(f, r, n) > 0 ==> Count(Next(f, n), r, n) == Count(f, r, n) - 1
  {
  }

  lemma MoveKeeps(s: State, t: nat, p: PC)
    requires Inv(s) && t in s.pc && PcOk(s.rear, s.front, s.nodes, p)
    ensures Inv(Go(s, t, p)) && Contents(Go(s, t, p)) == Contents(s)
  {
    hide PcOk, WordsOk;
  }

  /** A finish that takes effect writes the present rear's element to the present rear's slot. */
  lemma FinishIsCurrent(s: State, was: Rear, v: nat)
    requires Inv(s) && SeenRear(s.rear, s.nodes, was) && Finish(s, was, v) != s
    ensures s.rear == was && s.nodes[was.index].counter + 1 == was.counter
    ensures Finish(s, was, v) == s.(nodes := s.nodes[s.rear.index := Node(s.rear.value, s.rear.counter)])
  {
    hide PcOk;
  }

  lemma FinishPc(s: State, p: PC)
    requires WordsOk(s.rear, s.front, s.nodes) && PcOk(s.rear, s.front, s.nodes, p)
      && s.nodes[s.rear.index].counter + 1 == s.rear.counter
    ensures var nodes' := s.nodes[s.rear.index := Node(s.rear.value, s.rear.counter)]; PcOk(s.rear, s.front, nodes', p)
  {
  }

  lemma FinishKeeps(s: State, was: Rear, v: nat)
    requires Inv(s) && SeenRear(s.rear, s.nodes, was)
      && (s.nodes[was.index].counter + 1 == was.counter ==> s.nodes[was.index].value == v)
    ensures
      var s' := Finish(s, was, v);
      Inv(s') && Contents(s') == Contents(s) && s'.rear == s.rear && s'.front == s.front && s'.pc == s.pc
        && |s'.nodes| == |s.nodes| && Settled(s'.nodes, was)
  {
    var s' := Finish(s, was, v);
    if s' != s {
      FinishIsCurrent(s, was, v);
      hide PcOk;
      forall u: nat | u in s.pc ensures PcOk(s'.rear, s'.front, s'.nodes, s.pc[u]) { FinishPc(s, s.pc[u]); }
      Counts(s.front.index, s.rear.index, |s.nodes|);
      if Size(s) > 0 { ValuesSame(s.nodes, s'.nodes, s.front.index, Size(s) - 1, s.rear.index); }
    }
  }

  /** Slots of the queue before the rear one do not notice a store to the rear one. */
  lemma {:induction false} ValuesSame(nodes: seq<Node>, nodes': seq<Node>, f: nat, k: nat, r: nat)
    requires |nodes'| == |nodes| >= 2 && f < |nodes| && r < |nodes| && k + 1 <= Count(f, r, |nodes|)
    requires forall i :: 0 <= i < |nodes| && i != r ==> nodes'[i] == nodes[i]
    ensures Values(nodes', f, k) == Values(nodes, f, k)
    decreases k
  {
    Counts(f, r, |nodes|);
    if k > 0 { ValuesSame(nodes, nodes', Next(f, |nodes|), k - 1, r); }
  }

  /** One more slot at the end: the rear one. */
  lemma {:induction false} ValuesSnoc(nodes: seq<Node>, f: nat, r: nat, k: nat)
    requires |nodes| >= 2 && f < |nodes| && r < |nodes| && k + 1 == Count(f, r, |nodes|)
    ensures Values(nodes, f, k + 1) == Values(nodes, f, k) + [nodes[r].value]
    decreases k
  {
    Counts(f, r, |nodes|);
    if k > 0 {
      ValuesSnoc(nodes, Next(f, |nodes|), r, k - 1);
    } else {
      assert Values(nodes, Next(f, |nodes|), 0) == [];
    }
  }

  // ---- push ----

  lemma PushPc(s: State, r': Rear, p: PC)
    requires WordsOk(s.rear, s.front, s.nodes) && PcOk(s.rear, s.front, s.nodes, p)
      && Count(s.front.index, s.rear.index, |s.nodes|) < |s.nodes| - 1
    requires r'.index == Next(s.rear.index, |s.nodes|) && r'.counter == s.nodes[r'.index].counter + 1
      && s.rear.counter == s.nodes[s.rear.index].counter
    ensures PcOk(r', s.front, s.nodes, p)
  {
    Counts(s.front.index, s.rear.index, |s.nodes|);
  }

  /** A push that may swing the rear word finds the rear slot written and the next slot free. */
  lemma PushFacts(s: State, t: nat)
    requires Inv(s) && t in s.pc && s.pc[t].PushCas? && s.rear == s.pc[t].r
    ensures s.rear.counter == s.nodes[s.rear.index].counter && Size(s) < |s.nodes| - 1
      && s.nodes[Next(s.rear.index, |s.nodes|)].counter == s.pc[t].c
  {
    var p, n := s.pc[t], |s.nodes|;
    assert PcOk(s.rear, s.front, s.nodes, p);
    Counts(s.front.index, s.rear.index, n);
    Counts(p.f.index, s.rear.index, n);
  }

  lemma PushWords(s: State, r': Rear)
    requires WordsOk(s.rear, s.front, s.nodes) && Size(s) < |s.nodes| - 1
    requires r'.index == Next(s.rear.index, |s.nodes|) && r'.counter == s.nodes[r'.index].counter + 1
    ensures WordsOk(r', s.front, s.nodes)
  {
  }

  lemma PushKeeps(s: State, t: nat)
    requires Inv(s) && t in s.pc && s.pc[t].PushCas? && s.rear == s.pc[t].r
    ensures var s' := ActPush(s, t, false); Inv(s') && Contents(s') == Contents(s) + [s.pc[t].val]
  {
    hide PcOk, WordsOk, Contents, Next;
    PushFacts(s, t);
    var r' := Rear(s.pc[t].val, Next(s.rear.index, |s.nodes|), s.pc[t].c + 1);
    var s1 := s.(rear := r');
    PushWords(s, r');
    forall u: nat | u in s.pc ensures PcOk(r', s.front, s.nodes, s.pc[u]) { PushPc(s, r', s.pc[u]); }
    PushContents(s, s1);
    DoneOk(s1.rear, s1.front, s1.nodes);
    MoveKeeps(s1, t, Done(None));
  }

  lemma DoneOk(rear: Rear, front: Front, nodes: seq<Node>)
    requires rear.index < |nodes|
    ensures PcOk(rear, front, nodes, Done(None))
  {
  }

  lemma PushContents(s: State, s1: State)
    requires WordsOk(s.rear, s.front, s.nodes) && s1.nodes == s.nodes && s1.front == s.front
      && s.rear.counter == s.nodes[s.rear.index].counter
    requires s1.rear.index == Next(s.rear.index, |s.nodes|) && Size(s) < |s.nodes| - 1
    ensures Contents(s1) == Contents(s) + [s1.rear.value]
  {
    Counts(s.front.index, s.rear.index, |s.nodes|);
    if Size(s) > 0 { ValuesSnoc(s.nodes, s.front.index, s.rear.index, Size(s) - 1); }
  }

  // ---- pop ----

  lemma PopPc(s: State, p: PC)
    requires WordsOk(s.rear, s.front, s.nodes) && PcOk(s.rear, s.front, s.nodes, p) && Size(s) > 0
    ensures PcOk(s.rear, Front(Next(s.front.index, |s.nodes|), s.front.counter + 1), s.nodes, p)
  {
    Counts(s.front.index, s.rear.index, |s.nodes|);
  }

  lemma PopFacts(s: State, t: nat)
    requires Inv(s) && t in s.pc && s.pc[t].PopCas? && s.front == s.pc[t].f
    ensures Size(s) > 0 && Contents(s)[0] == s.pc[t].ret
  {
    assert PcOk(s.rear, s.front, s.nodes, s.pc[t]);
    Counts(s.front.index, s.rear.index, |s.nodes|);
  }

  lemma PopWords(s: State)
    requires WordsOk(s.rear, s.front, s.nodes) && Size(s) > 0
    ensures var s1 := s.(front := Front(Next(s.front.index, |s.nodes|), s.front.counter + 1));
      WordsOk(s1.rear, s1.front, s1.nodes) && Contents(s1) == Contents(s)[1..]
  {
    Counts(s.front.index, s.rear.index, |s.nodes|);
  }

  /** A pop that succeeds removes and returns the oldest element. */
  lemma PopKeeps(s: State, t: nat)
    requires Inv(s) && t in s.pc && s.pc[t].PopCas? && s.front == s.pc[t].f
    ensures
      var s' := ActPop(s, t);
      Inv(s') && Contents(s) != [] && Contents(s') == Contents(s)[1..] && s'.pc[t] == Done(Some(Contents(s)[0]))
  {
    hide PcOk, WordsOk, Next;
    PopFacts(s, t);
    PopWords(s);
    hide Contents;
    var s1 := s.(front := Front(Next(s.front.index, |s.nodes|), s.front.counter + 1));
    forall u: nat | u in s.pc ensures PcOk(s1.rear, s1.front, s1.nodes, s.pc[u]) { PopPc(s, s.pc[u]); }
    PopDoneOk(s1.rear, s1.front, s1.nodes, s.pc[t].ret);
    MoveKeeps(s1, t, Done(Some(s.pc[t].ret)));
  }

  lemma PopDoneOk(rear: Rear, front: Front, nodes: seq<Node>, v: nat)
    requires rear.index < |nodes|
    ensures PcOk(rear, front, nodes, Done(Some(v)))
  {
  }

  // ---- all steps ----

  lemma PushReadKeeps(s: State, t: nat, fail: bool)
    requires Inv(s) && t in s.pc && IsPush(s.pc[t]) && !s.pc[t].PushFinCas?
      && !(s.pc[t].PushCas? && !fail && s.rear == s.pc[t].r)
    ensures var s' := ActPush(s, t, fail); Inv(s') && Contents(s') == Contents(s)
  {
    assert PcOk(s.rear, s.front, s.nodes, s.pc[t]);
    var p := ActPush(s, t, fail).pc[t];
    assert PcOk(s.rear, s.front, s.nodes, p);
    hide PcOk, WordsOk;
    MoveKeeps(s, t, p);
  }

  lemma PopReadKeeps(s: State, t: nat)
    requires Inv(s) && Enabled(s, Run(t, false)) && !IsPush(s.pc[t]) && !s.pc[t].PopFinCas?
      && !(s.pc[t].PopCas? && s.front == s.pc[t].f)
    ensures var s' := ActPop(s, t); Inv(s') && Contents(s') == Contents(s)
  {
    PopReadPc(s, t);
    var p := ActPop(s, t).pc[t];
    hide PcOk, WordsOk;
    MoveKeeps(s, t, p);
  }

  lemma PopReadPc(s: State, t: nat)
    requires Inv(s) && Enabled(s, Run(t, false)) && !IsPush(s.pc[t]) && !s.pc[t].PopFinCas?
      && !(s.pc[t].PopCas? && s.front == s.pc[t].f)
    ensures ActPop(s, t) == Go(s, t, ActPop(s, t).pc[t]) && PcOk(s.rear, s.front, s.nodes, ActPop(s, t).pc[t])
  {
    assert PcOk(s.rear, s.front, s.nodes, s.pc[t]);
    Counts(s.front.index, s.rear.index, |s.nodes|);
    if s.pc[t].PopAgain? { Counts(s.pc[t].f.index, s.pc[t].r.index, |s.nodes|); }
  }

  lemma FinStepKeeps(s: State, t: nat, fail: bool)
    requires Inv(s) && t in s.pc && (s.pc[t].PushFinCas? || s.pc[t].PopFinCas?)
    ensures
      var s' := if IsPush(s.pc[t]) then ActPush(s, t, fail) else ActPop(s, t);
      Inv(s') && Contents(s') == Contents(s)
  {
    var p := s.pc[t];
    assert PcOk(s.rear, s.front, s.nodes, p);
    FinishKeeps(s, p.r, p.v);
    var s1 := Finish(s, p.r, p.v);
    assert PcOk(s1.rear, s1.front, s1.nodes, p);
    Counts(s1.front.index, s1.rear.index, |s1.nodes|);
    var q := if p.PushFinCas? then PushPeek(p.val, p.r, p.f) else PopRead(p.f, p.r);
    assert PcOk(s1.rear, s1.front, s1.nodes, q);
    hide PcOk, WordsOk;
    MoveKeeps(s1, t, q);
  }

  lemma StepKeeps(s: State, e: Step)
    requires Inv(s) && Enabled(s, e)
    ensures Inv(Apply(s, e)) && Contents(Apply(s, e)) == Do(EffectOf(s, e), Contents(s))
  {
    hide Inv, ActPush, ActPop, Contents;
    match e {
      case Push(t, val) => BeginKeeps(s, t, PushRear(val));
      case Pop(t) => BeginKeeps(s, t, PopFront);
      case Run(t, fail) =>
        var p := s.pc[t];
        if p.PushFinCas? || p.PopFinCas? { FinStepKeeps(s, t, fail); }
        else if p.PushCas? && !fail && s.rear == p.r { PushKeeps(s, t); }
        else if p.PopCas? && s.front == p.f { PopKeeps(s, t); }
        else if IsPush(p) { PushReadKeeps(s, t, fail); }
        else { PopReadKeeps(s, t); }
    }
  }

  lemma BeginKeeps(s: State, t: nat, p: PC)
    requires Inv(s) && t in s.pc && (p.PushRear? || p.PopFront?)
    ensures Inv(Go(s, t, p)) && Contents(Go(s, t, p)) == Contents(s)
  {
    MoveKeeps(s, t, p);
  }

  lemma {:induction false} RunInv(states: seq<State>, steps: seq<Step>, i: nat)
    requires IsRun(states, steps) && i < |states|
    ensures Inv(states[i])
  {
    if i > 0 { RunInv(states, steps, i - 1); StepKeeps(states[i - 1], steps[i - 1]); }
  }

  /** In every run every step acts on the queue like the sequential enqueue or dequeue it stands for. */
  lemma QueueIsSequential(states: seq<State>, steps: seq<Step>, i: nat)
    requires IsRun(states, steps) && i < |steps|
    ensures Contents(states[i + 1]) == Do(EffectOf(states[i], steps[i]), Contents(states[i]))
    ensures EffectOf(states[i], steps[i]).Popped? ==>
              var c := Contents(states[i]); c != [] && states[i + 1].pc[steps[i].t] == Done(Some(c[0]))
    ensures |Contents(states[i])| <= |states[i].nodes| - 1
  {
    RunInv(states, steps, i);
    StepKeeps(states[i], steps[i]);
    var s, e := states[i], steps[i];
    if EffectOf(s, e).Popped? { PopKeeps(s, e.t); }
    Counts(s.front.index, s.rear.index, |s.nodes|);
  }

  // ---- what the negative answers mean ----

  /** A rear word that was seen and is no longer the rear word never is again. */
  lemma RearNeverReturns(s: State, e: Step, r: Rear)
    requires Inv(s) && Enabled(s, e) && SeenRear(s.rear, s.nodes, r)
    ensures var s' := Apply(s, e); SeenRear(s'.rear, s'.nodes, r) && (s'.rear == r ==> s.rear == r)
  {
    if e.Run? {
      var p := s.pc[e.t];
      assert PcOk(s.rear, s.front, s.nodes, p);
      if p.PushFinCas? || p.PopFinCas? {
        if Finish(s, p.r, p.v) != s { FinishIsCurrent(s, p.r, p.v); }
      }
    }
  }

  lemma {:induction false} RearStood(states: seq<State>, steps: seq<Step>, j: nat, i: nat, r: Rear)
    requires IsRun(states, steps) && j <= i < |states| && SeenRear(states[j].rear, states[j].nodes, r)
    ensures SeenRear(states[i].rear, states[i].nodes, r) && (states[i].rear == r ==> states[j].rear == r)
  {
    if j < i {
      RearStood(states, steps, j, i - 1, r);
      RunInv(states, steps, i - 1);
      RearNeverReturns(states[i - 1], steps[i - 1], r);
    }
  }

  lemma {:induction false} FrontStood(states: seq<State>, steps: seq<Step>, j: nat, i: nat)
    requires IsRun(states, steps) && j <= i < |states|
    ensures states[j].front.counter <= states[i].front.counter
  {
    if j < i {
      FrontStood(states, steps, j, i - 1);
      var s, e := states[i - 1], steps[i - 1];
      if e.Run? { assert Apply(s, e).front == s.front || Apply(s, e).front.counter == s.front.counter + 1; }
    }
  }

  predicate Starts(e: Step, t: nat) { !e.Run? && e.t == t }

  /** Thread t begins no operation between steps j and i: they belong to the same call. */
  ghost predicate SameCall(steps: seq<Step>, t: nat, j: nat, i: nat) {
    j < i <= |steps| && forall l :: j < l < i ==> !Starts(steps[l], t)
  }

  predicate LoadsRear(s: State, e: Step, t: nat) { e.Run? && e.t == t && t in s.pc && s.pc[t].PopRear? }

  predicate LoadsFront(s: State, e: Step, t: nat) { e.Run? && e.t == t && t in s.pc && s.pc[t].PushFront? }

  lemma {:induction false} RearLoadedAt(states: seq<State>, steps: seq<Step>, i: nat, t: nat) returns (j: nat)
    requires IsRun(states, steps) && i < |states| && t in states[i].pc && states[i].pc[t].PopAgain?
    ensures SameCall(steps, t, j, i) && LoadsRear(states[j], steps[j], t) && states[j].rear == states[i].pc[t].r
      && states[j].pc[t].f == states[i].pc[t].f
  {
    var s, e := states[i - 1], steps[i - 1];
    if e.Run? && e.t == t { j := i - 1; } else { j := RearLoadedAt(states, steps, i - 1, t); }
  }

  /** A pop that answers "empty" loaded, in the same call, the rear word when the queue was empty. */
  lemma EmptyWasEmpty(states: seq<State>, steps: seq<Step>, i: nat, t: nat)
    requires IsRun(states, steps) && i < |steps| && steps[i].Run? && steps[i].t == t && states[i].pc[t].PopAgain?
    requires states[i + 1].pc[t] == Done(None)
    ensures exists j: nat :: SameCall(steps, t, j, i) && LoadsRear(states[j], steps[j], t) && Contents(states[j]) == []
  {
    var j := RearLoadedAt(states, steps, i, t);
    RunInv(states, steps, j);
    assert PcOk(states[j].rear, states[j].front, states[j].nodes, states[j].pc[t]);
    FrontStood(states, steps, j, i);
    SlotsFixed(states, steps, j, i);
    assert Size(states[j]) == 0;
  }

  /** Where push stands between its loads of front and the test for a full queue. */
  predicate Pushing(p: PC) { p.PushAgain? || p.PushFinLoad? || p.PushFinCas? || p.PushPeek? }

  lemma PushMoves(s: State, e: Step, t: nat)
    requires Enabled(s, e) && t in Apply(s, e).pc && Pushing(Apply(s, e).pc[t])
    ensures var p' := Apply(s, e).pc[t];
      if LoadsFront(s, e, t) then p'.PushAgain? && p'.f == s.front && p'.r == s.pc[t].r
      else
        && !Starts(e, t) && t in s.pc && Pushing(s.pc[t]) && p'.f == s.pc[t].f && p'.r == s.pc[t].r
        && (s.pc[t].PushAgain? && !p'.PushAgain? ==> s.rear == p'.r)
  {
  }

  lemma SeenAtLoad(s: State, e: Step, t: nat)
    requires Inv(s) && LoadsFront(s, e, t)
    ensures SeenRear(s.rear, s.nodes, s.pc[t].r)
  {
    assert PcOk(s.rear, s.front, s.nodes, s.pc[t]);
  }

  lemma {:induction false} FrontLoadedAt(states: seq<State>, steps: seq<Step>, i: nat, t: nat) returns (j: nat)
    requires IsRun(states, steps) && i < |states| && t in states[i].pc && Pushing(states[i].pc[t])
    ensures SameCall(steps, t, j, i) && LoadsFront(states[j], steps[j], t) && states[j].front == states[i].pc[t].f
      && states[j].pc[t].r == states[i].pc[t].r
    ensures !states[i].pc[t].PushAgain? ==> states[j].rear == states[i].pc[t].r
  {
    hide Inv, SeenRear, Apply, Enabled;
    NotYet(states, steps, i, t);
    var s, e := states[i - 1], steps[i - 1];
    PushMoves(s, e, t);
    if LoadsFront(s, e, t) {
      j := i - 1;
    } else {
      j := FrontLoadedAt(states, steps, i - 1, t);
      RunInv(states, steps, j);
      SeenAtLoad(states[j], steps[j], t);
      RearStood(states, steps, j, i - 1, s.pc[t].r);
    }
  }

  lemma NotYet(states: seq<State>, steps: seq<Step>, i: nat, t: nat)
    requires IsRun(states, steps) && i < |states| && t in states[i].pc && Pushing(states[i].pc[t])
    ensures i > 0
  {
  }

  /** A push that finds the queue full loaded, in the same call, the front word when all slots but one were taken. */
  lemma FullWasFull(states: seq<State>, steps: seq<Step>, i: nat, t: nat)
    requires IsRun(states, steps) && i < |steps| && steps[i].Run? && steps[i].t == t && states[i].pc[t].PushPeek?
    requires states[i + 1].pc[t] == Full
    ensures exists j: nat ::
      && SameCall(steps, t, j, i) && LoadsFront(states[j], steps[j], t)
      && |Contents(states[j])| == |states[j].nodes| - 1
  {
    var j := FrontLoadedAt(states, steps, i, t);
    RunInv(states, steps, j);
    SlotsFixed(states, steps, j, i);
    Counts(states[j].front.index, states[j].rear.index, |states[j].nodes|);
  }

  lemma {:induction false} SlotsFixed(states: seq<State>, steps: seq<Step>, j: nat, i: nat)
    requires IsRun(states, steps) && j <= i < |states|
    ensures |states[i].nodes| == |states[j].nodes|
  {
    if j < i { SlotsFixed(states, steps, j, i - 1); }
  }

  // ---- whole calls ----

  predicate Runs(e: Step, t: nat) { e.Run? && e.t == t }

  /** Thread t's own steps from a up to b leave the queue alone. */
  ghost predicate Still(states: seq<State>, steps: seq<Step>, t: nat, a: nat, b: nat) {
    && |states| == |steps| + 1 && b <= |steps|
    && forall l :: a <= l < b && Runs(steps[l], t) ==> Contents(states[l + 1]) == Contents(states[l])
  }

  /** Step l of thread t performs the operation of the call on the queue, with answer r. */
  ghost predicate Performs(states: seq<State>, steps: seq<Step>, t: nat, call: Step, l: nat, r: Option<nat>) {
    && |states| == |steps| + 1 && l < |steps| && Runs(steps[l], t)
    && var c, c' := Contents(states[l]), Contents(states[l + 1]);
    match call
    case Push(_, v) => r == None && c' == c + [v]
    case Pop(_) => c != [] && r == Some(c[0]) && c' == c[1..]
    case Run(_, _) => false
  }

  /** It does so once, and leaves the queue alone otherwise. */
  ghost predicate PerformsOnce(states: seq<State>, steps: seq<Step>, t: nat, call: Step, j: nat, i: nat,
        r: Option<nat>) {
    exists l: nat ::
      j < l < i && Performs(states, steps, t, call, l, r) && Still(states, steps, t, j + 1, l)
        && Still(states, steps, t, l + 1, i)
  }

  /** Thread t took a step, between j and i, while the queue had n elements. */
  ghost predicate Met(states: seq<State>, steps: seq<Step>, t: nat, j: nat, i: nat, n: nat) {
    && |states| == |steps| + 1 && i <= |steps|
    && exists l: nat :: j < l < i && Runs(steps[l], t) && |Contents(states[l])| == n
  }

  /** Where the call that started at step j stands at state i. */
  ghost predicate CallAt(states: seq<State>, steps: seq<Step>, t: nat, call: Step, j: nat, i: nat) {
    && |states| == |steps| + 1 && j < i <= |steps| && t in states[i].pc
    && match states[i].pc[t]
       case Idle => false
       case Done(r) =>
         || PerformsOnce(states, steps, t, call, j, i, r)
         || (call.Pop? && r.None? && Still(states, steps, t, j + 1, i) && Met(states, steps, t, j, i, 0))
       case Full =>
         call.Push? && Still(states, steps, t, j + 1, i) && |states[i].nodes| > 0
           && Met(states, steps, t, j, i, |states[i].nodes| - 1)
       case p => Within(p, call) && Still(states, steps, t, j + 1, i)
  }

  /**
   * A push that is done has put its value at the end, once; a pop that is done has taken the oldest
   * element off once and answers with it, or has found the queue empty and left it alone; a call that
   * is not done has done nothing yet.
   */
  lemma {:induction false} CallIsSequential(states: seq<State>, steps: seq<Step>, t: nat, j: nat, i: nat)
    requires IsRun(states, steps) && SameCall(steps, t, j, i) && Starts(steps[j], t)
    ensures Contents(states[0]) == [] && CallAt(states, steps, t, steps[j], j, i)
    ensures Contents(states[j + 1]) == Contents(states[j])
    decreases i
  {
    hide Contents, Apply, Enabled;
    InitEmpty(states, steps);
    QueueIsSequential(states, steps, j);
    if i == j + 1 {
      BeginsAt(states[j], steps[j], t);
      NoneStill(states, steps, t, i);
    } else {
      CallIsSequential(states, steps, t, j, i - 1);
      CallGoes(states, steps, t, steps[j], j, i - 1);
    }
  }

  lemma InitEmpty(states: seq<State>, steps: seq<Step>)
    requires IsRun(states, steps)
    ensures Contents(states[0]) == []
  {
  }

  /** A thread at p is in the middle of the call. */
  predicate Within(p: PC, call: Step) {
    if IsPush(p) then call.Push? && p.val == call.val else IsPop(p) && call.Pop?
  }

  predicate IsPop(p: PC) {
    p.PopFront? || p.PopRear? || p.PopAgain? || p.PopFinLoad? || p.PopFinCas? || p.PopRead? || p.PopCas?
  }

  lemma BeginsAt(s: State, e: Step, t: nat)
    requires Enabled(s, e) && Starts(e, t)
    ensures t in Apply(s, e).pc && (Apply(s, e).pc[t].PushRear? || Apply(s, e).pc[t].PopFront?)
      && Within(Apply(s, e).pc[t], e)
  {
  }

  lemma OthersStep(s: State, e: Step, t: nat)
    requires Enabled(s, e) && t in s.pc && !Runs(e, t) && !Starts(e, t)
    ensures t in Apply(s, e).pc && Apply(s, e).pc[t] == s.pc[t] && |Apply(s, e).nodes| == |s.nodes|
  {
  }

  /** What one step of the thread makes of the call. */
  ghost predicate Steps(s: State, e: Step, s': State, t: nat, call: Step) {
    && t in s.pc && t in s'.pc && |s'.nodes| == |s.nodes|
    && var p, p' := s.pc[t], s'.pc[t];
    if EffectOf(s, e) != Nothing then
      && EffectOf(s, e) == (if call.Push? then Pushed(call.val) else Popped)
      && p'.Done? && (call.Push? ==> p'.result.None?)
    else if p'.Done? then p.PopAgain? && p'.result.None?
    else if p'.Full? then p.PushPeek?
    else Within(p', call)
  }

  lemma PushStep(s: State, t: nat, fail: bool, call: Step)
    requires t in s.pc && IsPush(s.pc[t]) && Within(s.pc[t], call)
    ensures Steps(s, Run(t, fail), ActPush(s, t, fail), t, call)
  {
    hide Next;
  }

  lemma PopStep(s: State, t: nat, fail: bool, call: Step)
    requires t in s.pc && IsPop(s.pc[t]) && Within(s.pc[t], call)
    ensures Steps(s, Run(t, fail), ActPop(s, t), t, call)
  {
    hide Next;
  }

  lemma OwnStep(s: State, e: Step, t: nat, call: Step)
    requires Enabled(s, e) && Runs(e, t) && t in s.pc && Within(s.pc[t], call)
    ensures Steps(s, e, Apply(s, e), t, call)
  {
    hide Steps, ActPush, ActPop;
    if IsPush(s.pc[t]) { PushStep(s, t, e.fail, call); } else { PopStep(s, t, e.fail, call); }
  }

  lemma CallGoes(states: seq<State>, steps: seq<Step>, t: nat, call: Step, j: nat, i: nat)
    requires IsRun(states, steps) && SameCall(steps, t, j, i + 1) && Starts(steps[j], t)
    requires CallAt(states, steps, t, call, j, i)
    ensures CallAt(states, steps, t, call, j, i + 1)
  {
    hide Contents, Apply, Enabled, Still, Performs, Met;
    var s, e := states[i], steps[i];
    if Runs(e, t) {
      RunsBusy(s, e, t);
      OwnStep(s, e, t, call);
      QueueIsSequential(states, steps, i);
      if EffectOf(s, e) == Nothing {
        StillOn(states, steps, t, j + 1, i);
        if states[i + 1].pc[t].Done? { MetEmpty(states, steps, t, j, i); }
        if states[i + 1].pc[t].Full? { MetFull(states, steps, t, j, i); }
      } else {
        DoesPerform(states, steps, t, call, i);
        NoneStill(states, steps, t, i + 1);
      }
    } else {
      OthersStep(s, e, t);
      OthersCall(states, steps, t, call, j, i);
    }
  }

  lemma RunsBusy(s: State, e: Step, t: nat)
    requires Enabled(s, e) && Runs(e, t)
    ensures t in s.pc && !s.pc[t].Idle? && !s.pc[t].Done? && !s.pc[t].Full?
  {
  }

  lemma DoesPerform(states: seq<State>, steps: seq<Step>, t: nat, call: Step, i: nat)
    requires IsRun(states, steps) && i < |steps| && Runs(steps[i], t) && !call.Run?
      && EffectOf(states[i], steps[i]) != Nothing && Steps(states[i], steps[i], states[i + 1], t, call)
    ensures Performs(states, steps, t, call, i, states[i + 1].pc[t].result)
  {
    hide Contents, Apply, Enabled;
    QueueIsSequential(states, steps, i);
  }

  lemma MetEmpty(states: seq<State>, steps: seq<Step>, t: nat, j: nat, i: nat)
    requires IsRun(states, steps) && SameCall(steps, t, j, i + 1) && Starts(steps[j], t) && j < i
    requires Runs(steps[i], t) && t in states[i].pc && states[i].pc[t].PopAgain? && t in states[i + 1].pc
      && states[i + 1].pc[t] == Done(None)
    ensures Met(states, steps, t, j, i + 1, 0)
  {
    hide Contents, Apply, Enabled;
    EmptyWasEmpty(states, steps, i, t);
    var l: nat :| SameCall(steps, t, l, i) && LoadsRear(states[l], steps[l], t) && Contents(states[l]) == [];
    assert l > j && Runs(steps[l], t);
  }

  lemma MetFull(states: seq<State>, steps: seq<Step>, t: nat, j: nat, i: nat)
    requires IsRun(states, steps) && SameCall(steps, t, j, i + 1) && Starts(steps[j], t) && j < i
    requires Runs(steps[i], t) && t in states[i].pc && states[i].pc[t].PushPeek? && t in states[i + 1].pc
      && states[i + 1].pc[t] == Full
    ensures |states[i + 1].nodes| > 0 && Met(states, steps, t, j, i + 1, |states[i + 1].nodes| - 1)
  {
    hide Contents, Apply, Enabled;
    FullWasFull(states, steps, i, t);
    var l: nat :| SameCall(steps, t, l, i) && LoadsFront(states[l], steps[l], t)
      && |Contents(states[l])| == |states[l].nodes| - 1;
    SlotsFixed(states, steps, l, i + 1);
    assert l > j && Runs(steps[l], t);
  }

  lemma NoneStill(states: seq<State>, steps: seq<Step>, t: nat, a: nat)
    requires |states| == |steps| + 1 && a <= |steps|
    ensures Still(states, steps, t, a, a)
  {
  }

  lemma StillOn(states: seq<State>, steps: seq<Step>, t: nat, a: nat, b: nat)
    requires Still(states, steps, t, a, b) && b < |steps|
    requires Runs(steps[b], t) ==> Contents(states[b + 1]) == Contents(states[b])
    ensures Still(states, steps, t, a, b + 1)
  {
    hide Contents;
  }

  /** Steps of others do not matter to the call. */
  lemma OthersCall(states: seq<State>, steps: seq<Step>, t: nat, call: Step, j: nat, i: nat)
    requires CallAt(states, steps, t, call, j, i) && i < |steps| && !Runs(steps[i], t)
    requires t in states[i + 1].pc && states[i + 1].pc[t] == states[i].pc[t]
      && |states[i + 1].nodes| == |states[i].nodes|
    ensures CallAt(states, steps, t, call, j, i + 1)
  {
    hide Contents, Still, Performs;
    var p := states[i].pc[t];
    if p.Done? && PerformsOnce(states, steps, t, call, j, i, p.result) {
      var l: nat :| j < l < i && Performs(states, steps, t, call, l, p.result) && Still(states, steps, t, j + 1, l)
        && Still(states, steps, t, l + 1, i);
      StillOn(states, steps, t, l + 1, i);
    } else {
      StillOn(states, steps, t, j + 1, i);
    }
  }

  /** Counters of slots only grow, and a helper's write takes effect only for the present rear. */
  lemma CountersGrow(states: seq<State>, steps: seq<Step>, i: nat, k: nat)
    requires IsRun(states, steps) && i < |steps| && k < |states[i].nodes|
    ensures k < |states[i + 1].nodes| && states[i].nodes[k].counter <= states[i + 1].nodes[k].counter
    ensures states[i + 1].nodes[k] != states[i].nodes[k] ==>
              states[i].rear.index == k && states[i + 1].nodes[k] == Node(states[i].rear.value, states[i].rear.counter)
  {
    RunInv(states, steps, i);
    var s, e := states[i], steps[i];
    if e.Run? && (s.pc[e.t].PushFinCas? || s.pc[e.t].PopFinCas?) {
      var p := s.pc[e.t];
      assert PcOk(s.rear, s.front, s.nodes, p);
      if Finish(s, p.r, p.v) != s { FinishIsCurrent(s, p.r, p.v); }
    }
  }
}
