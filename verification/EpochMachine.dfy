/**
 * Epoch-based reclamation as a small-step machine: any number of threads enter and leave guards,
 * unlink nodes, mark them and free them.  A guard is entered by a load of the global epoch followed
 * by a store of the local one, and a cleanup scans the local epochs one at a time.
 */
module EpochMachine {
  import opened Common
  import opened EpochList

  datatype PC =
    | Out
    | Entering(epoch: nat)
    | In
    | Leaving
    | Scan(todo: set<nat>, oldest: Option<nat>)
    | Sweep(oldest: Option<nat>, at: nat)

  /**
   * local: the published epochs (None is the largest); linked: nodes of the structure; reach: the
   * nodes a thread inside its guard may have met, i.e. those linked at some moment since it entered;
   * pending: nodes a thread has unlinked and not yet marked; freed: what was given back.
   */
  datatype State = State(
    epoch: nat, local: map<nat, Option<nat>>, pc: map<nat, PC>,
    linked: set<nat>, used: set<nat>, reach: map<nat, set<nat>>, pending: map<nat, set<nat>>,
    labels: map<nat, seq<Label>>, threshold: map<nat, nat>, added: map<nat, nat>, deleted: map<nat, nat>,
      freed: set<nat>)

  datatype Step =
    | Load(t: nat)
    | Enter(t: nat)
    | Link(t: nat, n: nat)
    | Unlink(t: nat, n: nat)
    | Mark(t: nat, n: nat)
    | Exit(t: nat)
    | Retreat(t: nat)
    | Look(t: nat, u: nat)
    | Looked(t: nat)
    | Clean(t: nat)

  function Pc(s: State, t: nat): PC { Get(s.pc, t, Out) }

  function Reach(s: State, t: nat): set<nat> { Get(s.reach, t, {}) }

  function Pending(s: State, t: nat): set<nat> { Get(s.pending, t, {}) }

  function Labels(s: State, t: nat): seq<Label> { Get(s.labels, t, []) }

  function Local(s: State, t: nat): Option<nat> { Get(s.local, t, None) }

  function Min(a: Option<nat>, b: Option<nat>): Option<nat> {
    if a.None? then b else if b.None? || a.value <= b.value then a else b
  }

  predicate Enabled(s: State, e: Step) {
    match e
    case Load(t) => t in s.pc && Pc(s, t).Out?
    case Enter(t) => Pc(s, t).Entering?
    case Link(t, n) => Pc(s, t).In? && n !in s.used
    case Unlink(t, n) => Pc(s, t).In? && n in s.linked
    case Mark(t, n) => Pc(s, t).In? && n in Pending(s, t)
    case Exit(t) => Pc(s, t).In? && Pending(s, t) == {}
    case Retreat(t) => Pc(s, t).Leaving?
    case Look(t, u) => Pc(s, t).Scan? && u in Pc(s, t).todo
    case Looked(t) => Pc(s, t).Scan? && Pc(s, t).todo == {}
    case Clean(t) => Pc(s, t).Sweep?
  }

  /** exitEpocheAndCleanup up to the store of the local epoch; gc is startGCThreshhold. */
  function Leave(s: State, t: nat, gc: nat): State {
    var c, empty := Get(s.threshold, t, 0), Labels(s, t) == [];
    s.(epoch := if c % 64 == 1 then s.epoch + 1 else s.epoch,
       reach := s.reach[t := {}],
       pc := s.pc[t := if c > gc && !empty then Leaving else Out],
       threshold := if c > gc && empty then s.threshold[t := 0] else s.threshold)
  }

  /** One turn of the loop of exitEpocheAndCleanup over the labels. */
  function Reap(s: State, t: nat): State
    requires Pc(s, t).Sweep?
  {
    var ls, p := Labels(s, t), Pc(s, t);
    if p.at >= |ls| then s.(pc := s.pc[t := Out], threshold := s.threshold[t := 0])
    else if Older(ls[p.at].epoch, p.oldest) then
      s.(labels := s.labels[t := Without(ls, p.at)], freed := s.freed + (set n | n in ls[p.at].nodes),
         deleted := s.deleted[t := Get(s.deleted, t, 0) + |ls[p.at].nodes|])
    else s.(pc := s.pc[t := Sweep(p.oldest, p.at + 1)])
  }

  function Apply(gc: nat, s: State, e: Step): State
    requires Enabled(s, e)
  {
    match e
    case Load(t) => s.(pc := s.pc[t := Entering(s.epoch)])
    case Enter(t) => s.(pc := s.pc[t := In], local := s.local[t := Some(Pc(s, t).epoch)],
      reach := s.reach[t := s.linked])
    case Link(t, n) =>
      s.(linked := s.linked + {n}, used := s.used + {n},
         reach := map u | u in s.pc :: if Pc(s, u).In? then Reach(s, u) + {n} else {})
    case Unlink(t, n) => s.(linked := s.linked - {n}, pending := s.pending[t := Pending(s, t) + {n}])
    case Mark(t, n) =>
      s.(pending := s.pending[t := Pending(s, t) - {n}], labels := s.labels[t := Added(Labels(s, t), n, s.epoch)],
         threshold := s.threshold[t := Get(s.threshold, t, 0) + 1], added := s.added[t := Get(s.added, t, 0) + 1])
    case Exit(t) => Leave(s, t, gc)
    case Retreat(t) => s.(pc := s.pc[t := Scan(s.pc.Keys, None)], local := s.local[t := None])
    case Look(t, u) => s.(pc := s.pc[t := Scan(Pc(s, t).todo - {u}, Min(Pc(s, t).oldest, Local(s, u)))])
    case Looked(t) => s.(pc := s.pc[t := Sweep(Pc(s, t).oldest, 0)])
    case Clean(t) => Reap(s, t)
  }

  predicate Init(s: State) {
    && s.epoch == 0 && s.local == map[] && (forall t: nat :: t in s.pc ==> s.pc[t].Out?) && s.linked == {}
      && s.used == {}
    && s.reach == map[] && s.pending == map[] && s.labels == map[] && s.threshold == map[] && s.added == map[]
      && s.deleted == map[] && s.freed == {}
  }

  ghost predicate IsRun(gc: nat, states: seq<State>, steps: seq<Step>) {
    && |states| == |steps| + 1 && Init(states[0])
    && forall i :: 0 <= i < |steps| ==> Enabled(states[i], steps[i]) && states[i + 1] == Apply(gc, states[i], steps[i])
  }

  // ---- the invariant ----

  type Lists = map<nat, seq<Label>>

  type Sets = map<nat, set<nat>>

  function SetOf(m: Sets, t: nat): set<nat> { Get(m, t, {}) }

  predicate Has(m: Sets, t: nat, n: nat) { n in SetOf(m, t) }

  function ListOf(ls: Lists, t: nat): seq<Label> { Get(ls, t, []) }

  function PcOf(pc: map<nat, PC>, t: nat): PC { Get(pc, t, Out) }

  function LocalOf(local: map<nat, Option<nat>>, t: nat): Option<nat> { Get(local, t, None) }

  /** Node n is in label i of thread t. */
  predicate Waits(ls: Lists, t: nat, i: nat, n: nat) { i < |ListOf(ls, t)| && n in ListOf(ls, t)[i].nodes }

  /** Where a node can be: linked, unlinked by t and unmarked, waiting in a label of t, or freed. */
  ghost predicate PlacesOk(linked: set<nat>, used: set<nat>, freed: set<nat>, pending: Sets, ls: Lists) {
    && linked <= used && freed <= used && linked !! freed
    && (forall t: nat, n: nat :: Has(pending, t, n) ==> n in used && n !in linked && n !in freed)
    && (forall t: nat, i: nat, n: nat :: Waits(ls, t, i, n) ==> n in used && n !in linked && n !in freed)
    && (forall t: nat, u: nat, n: nat :: Has(pending, t, n) && Has(pending, u, n) ==> t == u)
    && (forall t: nat, u: nat, i: nat, n: nat :: Has(pending, t, n) ==> !Waits(ls, u, i, n))
  }

  /** A node is somewhere: linked, unlinked and unmarked, waiting, or freed. */
  ghost predicate Placed(linked: set<nat>, freed: set<nat>, pending: Sets, ls: Lists, n: nat) {
    n in linked || n in freed || (exists t: nat :: Has(pending, t, n)) || exists t: nat, i: nat :: Waits(ls, t, i, n)
  }

  /** No node is lost. */
  ghost predicate NoneLost(linked: set<nat>, used: set<nat>, freed: set<nat>, pending: Sets, ls: Lists) {
    forall n: nat :: n in used ==> Placed(linked, freed, pending, ls, n)
  }

  ghost predicate ListsOk(ls: Lists) {
    && (forall t: nat, u: nat, i: nat, j: nat, n: nat :: Waits(ls, t, i, n) && Waits(ls, u, j, n) ==> t == u && i == j)
    && (forall t: nat, i: nat :: i < |ListOf(ls, t)| ==> NoDup(ListOf(ls, t)[i].nodes))
  }

  ghost predicate ThreadsOk(epoch: nat, local: map<nat, Option<nat>>, pc: map<nat, PC>) {
    && (forall u: nat :: PcOf(pc, u).In? ==> LocalOf(local, u).Some? && LocalOf(local, u).value <= epoch)
    && (forall u: nat :: PcOf(pc, u).Entering? ==> PcOf(pc, u).epoch <= epoch)
  }

  ghost predicate ReachOk(pc: map<nat, PC>, reach: Sets, used: set<nat>, freed: set<nat>) {
    forall u: nat, n: nat :: Has(reach, u, n) ==> u in pc && PcOf(pc, u).In? && n in used && n !in freed
  }

  predicate AtMost(a: Option<nat>, b: Option<nat>) { a.Some? && b.Some? && a.value <= b.value }

  /** A thread that may have met a waiting node has published an epoch no later than the node's label. */
  ghost predicate LabelsOk(local: map<nat, Option<nat>>, reach: Sets, ls: Lists) {
    forall t: nat, i: nat, u: nat, n: nat :: Waits(ls, t, i, n) && Has(reach, u, n) ==>
      AtMost(LocalOf(local, u), Some(ListOf(ls, t)[i].epoch))
  }

  /** Whoever a scan has passed and may have met a waiting node is no younger than the scan's result. */
  predicate Passed(p: PC, u: nat, l: Option<nat>) {
    && (p.Scan? ==> u in p.todo || AtMost(p.oldest, l))
    && (p.Sweep? ==> AtMost(p.oldest, l))
  }

  ghost predicate ScanOk(pc: map<nat, PC>, local: map<nat, Option<nat>>, reach: Sets, ls: Lists) {
    forall t: nat, i: nat, u: nat, n: nat :: Waits(ls, t, i, n) && Has(reach, u, n) ==>
      Passed(PcOf(pc, t), u, LocalOf(local, u))
  }

  ghost predicate CountsOk(added: map<nat, nat>, deleted: map<nat, nat>, ls: Lists) {
    forall t: nat :: Get(added, t, 0) == Get(deleted, t, 0) + Count(ListOf(ls, t))
  }

  ghost predicate Inv(s: State) {
    && PlacesOk(s.linked, s.used, s.freed, s.pending, s.labels) && ListsOk(s.labels)
      && ThreadsOk(s.epoch, s.local, s.pc)
    && ReachOk(s.pc, s.reach, s.used, s.freed) && LabelsOk(s.local, s.reach, s.labels)
    && ScanOk(s.pc, s.local, s.reach, s.labels) && CountsOk(s.added, s.deleted, s.labels)
  }

  // ---- every step keeps it ----

  /** A thread outside its guard has met nothing. */
  lemma ReachMoves(pc: map<nat, PC>, reach: Sets, used: set<nat>, freed: set<nat>, t: nat, p: PC)
    requires ReachOk(pc, reach, used, freed) && !PcOf(pc, t).In?
    ensures ReachOk(pc[t := p], reach, used, freed)
  {
    var pc' := pc[t := p];
    forall u: nat, n: nat | Has(reach, u, n) ensures u in pc' && PcOf(pc', u).In? && n in used && n !in freed {
      assert u in pc && PcOf(pc, u).In?;
    }
  }

  lemma LoadKeeps(gc: nat, s: State, e: Step)
    requires Inv(s) && Enabled(s, e) && e.Load?
    ensures Inv(Apply(gc, s, e))
  {
    hide Waits;
    var s' := Apply(gc, s, e);
    forall u: nat ensures PcOf(s'.pc, u) == if u == e.t then Entering(s.epoch) else PcOf(s.pc, u) { }
    assert ThreadsOk(s'.epoch, s'.local, s'.pc);
    ReachMoves(s.pc, s.reach, s.used, s.freed, e.t, s'.pc[e.t]);
    assert ScanOk(s'.pc, s'.local, s'.reach, s'.labels);
  }

  lemma LookKeeps(gc: nat, s: State, e: Step)
    requires Inv(s) && Enabled(s, e) && (e.Look? || e.Looked?)
    ensures Inv(Apply(gc, s, e))
  {
    hide Waits;
    var s' := Apply(gc, s, e);
    forall u: nat ensures PcOf(s'.pc, u) == if u == e.t then s'.pc[e.t] else PcOf(s.pc, u) { }
    forall u: nat ensures PcOf(s.pc, u).In? ==> LocalOf(s.local, u).Some? { }
    assert ThreadsOk(s'.epoch, s'.local, s'.pc);
    ReachMoves(s.pc, s.reach, s.used, s.freed, e.t, s'.pc[e.t]);
    assert ScanOk(s'.pc, s'.local, s'.reach, s'.labels);
  }

  lemma EnterKeeps(gc: nat, s: State, e: Step)
    requires Inv(s) && Enabled(s, e) && e.Enter?
    ensures Inv(Apply(gc, s, e))
  {
    hide Waits;
    var s' := Apply(gc, s, e);
    forall u: nat
      ensures PcOf(s'.pc, u) == (if u == e.t then In else PcOf(s.pc, u))
        && LocalOf(s'.local, u) == (if u == e.t then Some(PcOf(s.pc, e.t).epoch) else LocalOf(s.local, u))
    {
    }
    forall u: nat, n: nat ensures Has(s'.reach, u, n) <==> if u == e.t then n in s.linked else Has(s.reach, u, n) { }
  }

  lemma LinkKeeps(gc: nat, s: State, e: Step)
    requires Inv(s) && Enabled(s, e) && e.Link?
    ensures Inv(Apply(gc, s, e))
  {
    hide Waits;
    var s' := Apply(gc, s, e);
    forall u: nat, n: nat | Has(s'.reach, u, n)
      ensures u in s.pc && PcOf(s.pc, u).In? && (Has(s.reach, u, n) || n == e.n)
    {
    }
  }

  lemma UnlinkKeeps(gc: nat, s: State, e: Step)
    requires Inv(s) && Enabled(s, e) && e.Unlink?
    ensures Inv(Apply(gc, s, e))
  {
    hide Waits;
    var s' := Apply(gc, s, e);
    forall u: nat, n: nat ensures Has(s'.pending, u, n) <==> Has(s.pending, u, n) || (u == e.t && n == e.n) { }
  }

  lemma ExitKeeps(gc: nat, s: State, e: Step)
    requires Inv(s) && Enabled(s, e) && e.Exit?
    ensures Inv(Apply(gc, s, e))
  {
    hide Waits, PlacesOk, ListsOk, CountsOk, LabelsOk, ScanOk, ReachOk, ThreadsOk, Leave;
    var s', t := Leave(s, e.t, gc), e.t;
    LeaveFacts(s, t, gc);
    LeaveReach(s, s', t);
    LeaveScan(s, s', t);
    LeaveThreads(s, s', t);
  }

  lemma LeaveFacts(s: State, t: nat, gc: nat)
    requires PcOf(s.pc, t).In?
    ensures var s' := Leave(s, t, gc);
      && s'.pc.Keys == s.pc.Keys && s'.epoch >= s.epoch
        && (PcOf(s'.pc, t).Out? || PcOf(s'.pc, t).Leaving?)
      && s' == s.(epoch := s'.epoch, pc := s'.pc, reach := s'.reach, threshold := s'.threshold)
      && (forall u: nat :: u != t ==> PcOf(s'.pc, u) == PcOf(s.pc, u))
      && (forall u: nat, n: nat :: Has(s'.reach, u, n) <==> u != t && Has(s.reach, u, n))
  {
    hide Leave, Has;
    LeaveShape(s, t, gc);
    var s' := Leave(s, t, gc);
    LeaveMaps(s, s', t);
  }

  lemma LeaveShape(s: State, t: nat, gc: nat)
    ensures var s' := Leave(s, t, gc);
      && s' == s.(epoch := s'.epoch, pc := s'.pc, reach := s'.reach, threshold := s'.threshold)
      && s'.epoch >= s.epoch && s'.reach == s.reach[t := {}]
      && (s'.pc == s.pc[t := Out] || s'.pc == s.pc[t := Leaving])
  {
  }

  lemma ReapShape(s: State, t: nat)
    requires Pc(s, t).Sweep?
    ensures var s' := Reap(s, t);
      && s'.linked == s.linked && s'.used == s.used && s'.reach == s.reach && s'.pending == s.pending
      && (s'.pc == s.pc || s'.pc == s.pc[t := PcOf(s'.pc, t)])
  {
    if Pc(s, t).at >= |Labels(s, t)| { }
    else if Older(Labels(s, t)[Pc(s, t).at].epoch, Pc(s, t).oldest) { }
  }

  lemma LeaveMaps(s: State, s': State, t: nat)
    requires PcOf(s.pc, t).In? && s'.reach == s.reach[t := {}]
      && (s'.pc == s.pc[t := Out] || s'.pc == s.pc[t := Leaving])
    ensures s'.pc.Keys == s.pc.Keys && (PcOf(s'.pc, t).Out? || PcOf(s'.pc, t).Leaving?)
    ensures forall u: nat :: u != t ==> PcOf(s'.pc, u) == PcOf(s.pc, u)
    ensures forall u: nat, n: nat :: Has(s'.reach, u, n) <==> u != t && Has(s.reach, u, n)
  {
    assert t in s.pc;
  }

  lemma LeaveThreads(s: State, s': State, t: nat)
    requires ThreadsOk(s.epoch, s.local, s.pc) && s'.epoch >= s.epoch
      && (PcOf(s'.pc, t).Out? || PcOf(s'.pc, t).Leaving?)
    requires s'.local == s.local && forall u: nat :: u != t ==> PcOf(s'.pc, u) == PcOf(s.pc, u)
    ensures ThreadsOk(s'.epoch, s'.local, s'.pc)
  {
  }

  lemma LeaveReach(s: State, s': State, t: nat)
    requires ReachOk(s.pc, s.reach, s.used, s.freed) && LabelsOk(s.local, s.reach, s.labels) && s'.pc.Keys == s.pc.Keys
      && s'.used == s.used && s'.freed == s.freed && s'.labels == s.labels
    requires s'.local == s.local && forall u: nat :: u != t ==> PcOf(s'.pc, u) == PcOf(s.pc, u)
    requires forall u: nat, n: nat :: Has(s'.reach, u, n) <==> u != t && Has(s.reach, u, n)
    ensures ReachOk(s'.pc, s'.reach, s'.used, s'.freed) && LabelsOk(s'.local, s'.reach, s'.labels)
  {
    hide Waits, Has;
    forall u: nat, n: nat | Has(s'.reach, u, n)
      ensures u in s'.pc && PcOf(s'.pc, u).In? && n in s.used && n !in s.freed
    {
      assert u in s.pc.Keys;
    }
  }

  lemma LeaveScan(s: State, s': State, t: nat)
    requires ReachOk(s.pc, s.reach, s.used, s.freed) && ScanOk(s.pc, s.local, s.reach, s.labels)
      && s'.labels == s.labels
    requires s'.local == s.local && forall u: nat :: u != t ==> PcOf(s'.pc, u) == PcOf(s.pc, u)
    requires forall u: nat, n: nat :: Has(s'.reach, u, n) <==> u != t && Has(s.reach, u, n)
    requires PcOf(s'.pc, t).Out? || PcOf(s'.pc, t).Leaving?
    ensures ScanOk(s'.pc, s'.local, s'.reach, s'.labels)
  {
    hide Waits, Has;
    forall v: nat, i: nat, u: nat, n: nat | Waits(s.labels, v, i, n) && Has(s'.reach, u, n)
      ensures Passed(PcOf(s'.pc, v), u, LocalOf(s'.local, u))
    {
      assert Has(s.reach, u, n) && u in s.pc.Keys;
    }
  }

  /** The thread has met nothing, so whatever it publishes is no promise; its scan has everyone to look at. */
  lemma RetreatKeeps(gc: nat, s: State, e: Step)
    requires Inv(s) && Enabled(s, e) && e.Retreat?
    ensures Inv(Apply(gc, s, e))
  {
    hide Waits, PlacesOk, ListsOk, CountsOk;
    var s', t := Apply(gc, s, e), e.t;
    forall u: nat
      ensures PcOf(s'.pc, u) == (if u == t then Scan(s.pc.Keys, None) else PcOf(s.pc, u))
        && LocalOf(s'.local, u) == (if u == t then None else LocalOf(s.local, u))
    {
    }
    forall u: nat, n: nat | Has(s.reach, u, n) ensures u != t && u in s.pc { }
    ReachMoves(s.pc, s.reach, s.used, s.freed, t, s'.pc[t]);
  }

  /** Where the nodes of a grown list stand. */
  lemma WaitsAdded(ls: Lists, t: nat, m: nat, epoch: nat)
    ensures var ls' := ls[t := Added(ListOf(ls, t), m, epoch)];
      && (forall u: nat, i: nat, n: nat :: u != t ==> (Waits(ls', u, i, n) <==> Waits(ls, u, i, n)))
      && (forall i: nat, n: nat :: Waits(ls', t, i, n) && !(i == 0 && n == m) ==>
        Before(ls, ls', t, i) >= 0 && Waits(ls, t, Before(ls, ls', t, i), n))
      && (forall i: nat :: 0 < i < |ListOf(ls', t)| ==>
        Before(ls, ls', t, i) >= 0 && Before(ls, ls', t, i) < |ListOf(ls, t)|
        && ListOf(ls', t)[i] == ListOf(ls, t)[Before(ls, ls', t, i)])
      && ListOf(ls', t) != [] && ListOf(ls', t)[0].epoch == epoch
  {
  }

  /** Where label i of the grown list stood. */
  function Before(ls: Lists, ls': Lists, t: nat, i: nat): int {
    if |ListOf(ls', t)| == |ListOf(ls, t)| then i else i - 1
  }

  lemma MarkKeeps(gc: nat, s: State, e: Step)
    requires Inv(s) && Enabled(s, e) && e.Mark?
    ensures Inv(Apply(gc, s, e))
  {
    var s' := Apply(gc, s, e);
    var ls, ls', t := s.labels, s'.labels, e.t;
    assert Has(s.pending, t, e.n);
    CountAdded(ListOf(ls, t), e.n, s.epoch);
    hide Waits, ListsOk, ThreadsOk, ReachOk, LabelsOk, ScanOk;
    MarkPlaces(s, s', t, e.n);
    MarkLists(ls, t, e.n, s.epoch);
    MarkLabels(s, s', t, e.n);
    hide PlacesOk;
    forall u: nat ensures Get(s'.added, u, 0) == Get(s'.deleted, u, 0) + Count(ListOf(ls', u)) {
      assert Get(s.added, u, 0) == Get(s.deleted, u, 0) + Count(ListOf(ls, u));
    }
  }

  lemma MarkPlaces(s: State, s': State, t: nat, m: nat)
    requires PlacesOk(s.linked, s.used, s.freed, s.pending, s.labels) && Has(s.pending, t, m) && s'.linked == s.linked
      && s'.used == s.used && s'.freed == s.freed
    requires s'.pending == s.pending[t := SetOf(s.pending, t) - {m}]
      && s'.labels == s.labels[t := Added(ListOf(s.labels, t), m, s.epoch)]
    ensures PlacesOk(s'.linked, s'.used, s'.freed, s'.pending, s'.labels)
  {
    var ls, ls' := s.labels, s'.labels;
    WaitsAdded(ls, t, m, s.epoch);
    forall u: nat, n: nat ensures Has(s'.pending, u, n) <==> Has(s.pending, u, n) && !(u == t && n == m) { }
    hide Waits, Has;
    forall u: nat, i: nat, n: nat | Waits(ls', u, i, n)
      ensures n == m || Waits(ls, u, if u == t then Before(ls, ls', t, i) else i, n)
    {
    }
    forall u: nat, v: nat, i: nat, n: nat | Has(s'.pending, u, n) ensures !Waits(ls', v, i, n) {
      assert n == m ==> u == t;
    }
  }

  lemma MarkLabels(s: State, s': State, t: nat, m: nat)
    requires ThreadsOk(s.epoch, s.local, s.pc) && ReachOk(s.pc, s.reach, s.used, s.freed)
      && LabelsOk(s.local, s.reach, s.labels) && ScanOk(s.pc, s.local, s.reach, s.labels)
    requires PcOf(s.pc, t).In? && s'.labels == s.labels[t := Added(ListOf(s.labels, t), m, s.epoch)] && s'.pc == s.pc
      && s'.local == s.local && s'.reach == s.reach
    ensures LabelsOk(s'.local, s'.reach, s'.labels) && ScanOk(s'.pc, s'.local, s'.reach, s'.labels)
  {
    var ls, ls' := s.labels, s'.labels;
    WaitsAdded(ls, t, m, s.epoch);
    hide Has;
    forall u: nat, i: nat, v: nat, n: nat | Waits(ls', u, i, n) && Has(s.reach, v, n)
      ensures AtMost(LocalOf(s.local, v), Some(ListOf(ls', u)[i].epoch))
        && Passed(PcOf(s.pc, u), v, LocalOf(s.local, v))
    {
      assert PcOf(s.pc, v).In? && LocalOf(s.local, v).Some? && LocalOf(s.local, v).value <= s.epoch;
      if u == t && i > 0 { assert Waits(ls, t, Before(ls, ls', t, i), n); }
      else if u != t { assert Waits(ls, u, i, n); }
    }
  }

  lemma MarkLists(ls: Lists, t: nat, m: nat, epoch: nat)
    requires ListsOk(ls) && (forall u: nat, i: nat :: !Waits(ls, u, i, m))
    ensures ListsOk(ls[t := Added(ListOf(ls, t), m, epoch)])
  {
    var ls' := ls[t := Added(ListOf(ls, t), m, epoch)];
    WaitsAdded(ls, t, m, epoch);
    var l := ListOf(ls, t);
    if l != [] && |l[0].nodes| < PER_LABEL {
      assert NoDup(l[0].nodes + [m]) by { assert m !in l[0].nodes by { assert !Waits(ls, t, 0, m); } }
    }
    assert NoDup(ListOf(ls', t)[0].nodes);
    hide Waits;
    forall u: nat, i: nat | i < |ListOf(ls', u)| ensures NoDup(ListOf(ls', u)[i].nodes) {
      if u == t && i > 0 { assert ListOf(ls', t)[i] == ListOf(ls, t)[Before(ls, ls', t, i)]; }
      else if u != t { assert ListOf(ls', u) == ListOf(ls, u); }
    }
    forall u: nat, v: nat, i: nat, j: nat, n: nat | Waits(ls', u, i, n) && Waits(ls', v, j, n)
      ensures u == v && i == j
    {
      if n != m {
        assert Waits(ls, u, if u == t then Before(ls, ls', t, i) else i, n);
        assert Waits(ls, v, if v == t then Before(ls, ls', t, j) else j, n);
      }
    }
  }

  lemma WaitsWithout(ls: Lists, t: nat, i: nat)
    requires i < |ListOf(ls, t)|
    ensures var ls' := ls[t := Without(ListOf(ls, t), i)];
      && (forall u: nat, j: nat, n: nat :: u != t ==> (Waits(ls', u, j, n) <==> Waits(ls, u, j, n)))
      && (forall j: nat, n: nat :: Waits(ls', t, j, n) ==> Waits(ls, t, Past(i, j), n))
      && (forall j: nat :: j < |ListOf(ls', t)| ==>
        Past(i, j) < |ListOf(ls, t)| && ListOf(ls', t)[j] == ListOf(ls, t)[Past(i, j)])
  {
  }

  /** Where label j stood before label i was dropped. */
  function Past(i: nat, j: nat): (k: nat)
    ensures k != i
  {
    if j < i then j else j + 1
  }

  /** A label older than the scan's result holds nothing any thread may still have. */
  lemma FreeIsSafe(s: State, t: nat, u: nat, n: nat)
    requires Inv(s) && PcOf(s.pc, t).Sweep? && PcOf(s.pc, t).at < |ListOf(s.labels, t)|
      && Older(ListOf(s.labels, t)[PcOf(s.pc, t).at].epoch, PcOf(s.pc, t).oldest)
    requires n in ListOf(s.labels, t)[PcOf(s.pc, t).at].nodes
    ensures !Has(s.reach, u, n)
  {
    assert Waits(s.labels, t, PcOf(s.pc, t).at, n);
  }

  lemma CleanKeeps(gc: nat, s: State, e: Step)
    requires Inv(s) && Enabled(s, e) && e.Clean?
    ensures Inv(Apply(gc, s, e))
  {
    hide Inv;
    var s', t := Apply(gc, s, e), e.t;
    var l, p := ListOf(s.labels, t), PcOf(s.pc, t);
    if p.at < |l| && Older(l[p.at].epoch, p.oldest) {
      CleanLabel(s, s', t);
    } else {
      CleanMoves(s, s', t);
    }
  }

  /** Stepping over a young label, or leaving the loop. */
  lemma CleanMoves(s: State, s': State, t: nat)
    requires Inv(s) && t in s.pc && PcOf(s.pc, t).Sweep? && t in s'.pc
      && s' == s.(pc := s.pc[t := s'.pc[t]], threshold := s'.threshold)
    requires s'.pc[t].Out? || (s'.pc[t].Sweep? && s'.pc[t].oldest == s.pc[t].oldest)
    ensures Inv(s')
  {
    hide Waits, PlacesOk, ListsOk, LabelsOk, CountsOk, ReachOk;
    forall u: nat ensures PcOf(s'.pc, u) == if u == t then s'.pc[t] else PcOf(s.pc, u) { }
    ReachMoves(s.pc, s.reach, s.used, s.freed, t, s'.pc[t]);
  }

  lemma CleanLabel(s: State, s': State, t: nat)
    requires Inv(s) && PcOf(s.pc, t).Sweep? && PcOf(s.pc, t).at < |ListOf(s.labels, t)|
      && Older(ListOf(s.labels, t)[PcOf(s.pc, t).at].epoch, PcOf(s.pc, t).oldest)
    requires var l := ListOf(s.labels, t)[PcOf(s.pc, t).at];
      s' == s.(labels := s.labels[t := Without(ListOf(s.labels, t), PcOf(s.pc, t).at)],
        freed := s.freed + (set n | n in l.nodes),
               deleted := s.deleted[t := Get(s.deleted, t, 0) + |l.nodes|])
    ensures Inv(s')
  {
    var at, nodes := PcOf(s.pc, t).at, ListOf(s.labels, t)[PcOf(s.pc, t).at].nodes;
    var gone := set n | n in nodes;
    forall u: nat, n: nat | n in gone ensures !Has(s.reach, u, n) { FreeIsSafe(s, t, u, n); }
    hide PlacesOk, ListsOk, ThreadsOk, ReachOk, LabelsOk, ScanOk, CountsOk, Has, ListOf, Without;
    CleanPlaces(s.linked, s.used, s.freed, s.pending, s.labels, t, at);
    CleanReach(s.pc, s.reach, s.used, s.freed, gone);
    CleanScans(s.pc, s.local, s.reach, s.labels, t, at);
    CleanCounts(s.added, s.deleted, s.labels, t, at);
  }

  /** Dropping a label and freeing its nodes. */
  lemma CleanPlaces(linked: set<nat>, used: set<nat>, freed: set<nat>, pending: Sets, ls: Lists, t: nat, at: nat)
    requires PlacesOk(linked, used, freed, pending, ls) && ListsOk(ls) && at < |ListOf(ls, t)|
    ensures var gone := set n | n in ListOf(ls, t)[at].nodes;
      PlacesOk(linked, used, freed + gone, pending, ls[t := Without(ListOf(ls, t), at)])
        && ListsOk(ls[t := Without(ListOf(ls, t), at)])
  {
    var l, ls' := ListOf(ls, t)[at], ls[t := Without(ListOf(ls, t), at)];
    forall n: nat | n in l.nodes ensures Waits(ls, t, at, n) { }
    WaitsWithout(ls, t, at);
    hide Waits, Without;
    assert forall u: nat :: u != t ==> ListOf(ls', u) == ListOf(ls, u);
    forall u: nat, i: nat, n: nat | Waits(ls', u, i, n)
      ensures Waits(ls, u, if u == t then Past(at, i) else i, n) && n !in l.nodes
    {
    }
  }

  lemma CleanReach(pc: map<nat, PC>, reach: Sets, used: set<nat>, freed: set<nat>, gone: set<nat>)
    requires ReachOk(pc, reach, used, freed) && forall u: nat, n: nat :: n in gone ==> !Has(reach, u, n)
    ensures ReachOk(pc, reach, used, freed + gone)
  {
  }

  lemma CleanScans(pc: map<nat, PC>, local: map<nat, Option<nat>>, reach: Sets, ls: Lists, t: nat, at: nat)
    requires LabelsOk(local, reach, ls) && ScanOk(pc, local, reach, ls) && at < |ListOf(ls, t)|
    ensures var ls' := ls[t := Without(ListOf(ls, t), at)]; LabelsOk(local, reach, ls') && ScanOk(pc, local, reach, ls')
  {
    var ls' := ls[t := Without(ListOf(ls, t), at)];
    WaitsWithout(ls, t, at);
    hide Waits, Without, Passed, AtMost, Has;
    forall u: nat, i: nat, n: nat | Waits(ls', u, i, n)
      ensures
        var j := if u == t then Past(at, i) else i;
        Waits(ls, u, j, n) && i < |ListOf(ls', u)| && j < |ListOf(ls, u)| && ListOf(ls', u)[i] == ListOf(ls, u)[j]
    {
      WaitsThere(ls', u, i, n);
      WaitsThere(ls, u, if u == t then Past(at, i) else i, n);
    }
  }

  lemma WaitsThere(ls: Lists, u: nat, i: nat, n: nat)
    requires Waits(ls, u, i, n)
    ensures i < |ListOf(ls, u)|
  {
  }

  lemma CleanCounts(added: map<nat, nat>, deleted: map<nat, nat>, ls: Lists, t: nat, at: nat)
    requires CountsOk(added, deleted, ls) && at < |ListOf(ls, t)|
    ensures CountsOk(added, deleted[t := Get(deleted, t, 0) + |ListOf(ls, t)[at].nodes|],
      ls[t := Without(ListOf(ls, t), at)])
  {
    CountWithout(ListOf(ls, t), at);
    hide Count, Without;
  }

  lemma StepKeeps(gc: nat, s: State, e: Step)
    requires Inv(s) && Enabled(s, e)
    ensures Inv(Apply(gc, s, e))
  {
    hide Inv, Apply, Enabled;
    match e {
      case Load(_) => LoadKeeps(gc, s, e);
      case Enter(_) => EnterKeeps(gc, s, e);
      case Link(_, _) => LinkKeeps(gc, s, e);
      case Unlink(_, _) => UnlinkKeeps(gc, s, e);
      case Mark(_, _) => MarkKeeps(gc, s, e);
      case Exit(_) => ExitKeeps(gc, s, e);
      case Retreat(_) => RetreatKeeps(gc, s, e);
      case Clean(_) => CleanKeeps(gc, s, e);
      case _ => LookKeeps(gc, s, e);
    }
  }

  lemma {:induction false} RunInv(gc: nat, states: seq<State>, steps: seq<Step>, i: nat)
    requires IsRun(gc, states, steps) && i < |states|
    ensures Inv(states[i])
  {
    if i > 0 { RunInv(gc, states, steps, i - 1); StepKeeps(gc, states[i - 1], steps[i - 1]); }
  }

  /**
   * No freed node is one that a thread inside its guard could have met before it was unlinked, no
   * freed node is linked, and every node given to a thread's list is freed or still waiting there.
   */
  lemma ReclamationIsSafe(gc: nat, states: seq<State>, steps: seq<Step>, i: nat)
    requires IsRun(gc, states, steps) && i < |states|
    ensures forall u: nat :: Reach(states[i], u) !! states[i].freed
    ensures states[i].linked !! states[i].freed
    ensures forall t: nat :: Get(states[i].added, t, 0) == Get(states[i].deleted, t, 0) + Count(Labels(states[i], t))
  {
    RunInv(gc, states, steps, i);
    var s := states[i];
    forall u: nat ensures Reach(s, u) !! s.freed {
      forall n | n in Reach(s, u) ensures n !in s.freed { assert Has(s.reach, u, n); }
    }
  }

  // ---- nothing is lost ----

  lemma PlacedOnward(s: State, s': State, n: nat)
    requires Placed(s.linked, s.freed, s.pending, s.labels, n) && s.linked <= s'.linked && s.freed <= s'.freed
    requires s'.pending == s.pending && s'.labels == s.labels
    ensures Placed(s'.linked, s'.freed, s'.pending, s'.labels, n)
  {
  }

  lemma UnlinkLosesNone(gc: nat, s: State, e: Step, n: nat)
    requires Enabled(s, e) && e.Unlink? && Placed(s.linked, s.freed, s.pending, s.labels, n)
    ensures var s' := Apply(gc, s, e); Placed(s'.linked, s'.freed, s'.pending, s'.labels, n)
  {
    hide Waits;
    var s' := Apply(gc, s, e);
    if n == e.n { assert Has(s'.pending, e.t, n); }
    else if t: nat :| Has(s.pending, t, n) { assert Has(s'.pending, t, n); }
  }

  lemma MarkLosesNone(gc: nat, s: State, e: Step, n: nat)
    requires Enabled(s, e) && e.Mark? && Placed(s.linked, s.freed, s.pending, s.labels, n)
    ensures var s' := Apply(gc, s, e); Placed(s'.linked, s'.freed, s'.pending, s'.labels, n)
  {
    var s' := Apply(gc, s, e);
    var ls, ls', t := s.labels, s'.labels, e.t;
    if n == e.n {
      assert Waits(ls', t, 0, n);
    } else if u: nat :| Has(s.pending, u, n) {
      assert Has(s'.pending, u, n);
    } else if u: nat, i: nat :| Waits(ls, u, i, n) {
      var shift := |ListOf(ls', t)| - |ListOf(ls, t)|;
      assert Waits(ls', u, if u == t then i + shift else i, n);
    }
  }

  /** Dropping label `at` of thread t leaves the other labels' nodes waiting. */
  lemma StillWaits(ls: Lists, t: nat, at: nat, u: nat, i: nat, n: nat)
    requires at < |ListOf(ls, t)| && Waits(ls, u, i, n) && (u != t || i != at)
    ensures Waits(ls[t := Without(ListOf(ls, t), at)], u, if u == t && i > at then i - 1 else i, n)
  {
  }

  /** Dropping a label frees the nodes of that label and leaves every other one waiting. */
  lemma DropLosesNone(s: State, s': State, t: nat, at: nat, n: nat)
    requires at < |ListOf(s.labels, t)| && Placed(s.linked, s.freed, s.pending, s.labels, n)
    requires s'.labels == s.labels[t := Without(ListOf(s.labels, t), at)] && s'.pending == s.pending
    requires s'.linked == s.linked && s'.freed == s.freed + set m | m in ListOf(s.labels, t)[at].nodes
    ensures Placed(s'.linked, s'.freed, s'.pending, s'.labels, n)
  {
    hide Without;
    if u: nat, i: nat :| Waits(s.labels, u, i, n) {
      if u == t && i == at { assert n in s'.freed; } else { StillWaits(s.labels, t, at, u, i, n); }
    }
  }

  lemma CleanLosesNone(gc: nat, s: State, e: Step, n: nat)
    requires Enabled(s, e) && e.Clean? && Placed(s.linked, s.freed, s.pending, s.labels, n)
    ensures var s' := Apply(gc, s, e); Placed(s'.linked, s'.freed, s'.pending, s'.labels, n)
  {
    hide Placed, Without;
    var s', t := Apply(gc, s, e), e.t;
    var l, at := Labels(s, t), Pc(s, t).at;
    if at < |l| && Older(l[at].epoch, Pc(s, t).oldest) { DropLosesNone(s, s', t, at, n); }
    else { PlacedOnward(s, s', n); }
  }

  lemma StepLosesNone(gc: nat, s: State, e: Step)
    requires Enabled(s, e) && NoneLost(s.linked, s.used, s.freed, s.pending, s.labels)
    ensures var s' := Apply(gc, s, e); NoneLost(s'.linked, s'.used, s'.freed, s'.pending, s'.labels)
  {
    hide Placed, Leave;
    var s' := Apply(gc, s, e);
    if e.Exit? { LeaveShape(s, e.t, gc); }
    forall n: nat | n in s'.used ensures Placed(s'.linked, s'.freed, s'.pending, s'.labels, n) {
      if e.Link? && n == e.n {
        assert Placed(s'.linked, s'.freed, s'.pending, s'.labels, n) by { LinkedPlaced(s', n); }
      }
      else if e.Unlink? { UnlinkLosesNone(gc, s, e, n); }
      else if e.Mark? { MarkLosesNone(gc, s, e, n); }
      else if e.Clean? { CleanLosesNone(gc, s, e, n); }
      else { PlacedOnward(s, s', n); }
    }
  }

  lemma LinkedPlaced(s: State, n: nat)
    requires n in s.linked
    ensures Placed(s.linked, s.freed, s.pending, s.labels, n)
  {
  }

  /** Every node that was ever linked is linked, unlinked and unmarked, waiting in a label, or freed. */
  lemma {:induction false} NothingLost(gc: nat, states: seq<State>, steps: seq<Step>, i: nat, n: nat)
    requires IsRun(gc, states, steps) && i < |states|
    ensures NoneLost(states[i].linked, states[i].used, states[i].freed, states[i].pending, states[i].labels)
    ensures (exists j: nat :: j < i && steps[j].Link? && steps[j].n == n) <==> n in states[i].used
  {
    hide NoneLost;
    if i == 0 {
      assert NoneLost({}, {}, {}, map[], map[]) by { NoNodes(); }
    } else {
      NothingLost(gc, states, steps, i - 1, n);
      StepLosesNone(gc, states[i - 1], steps[i - 1]);
      UsedStep(gc, states[i - 1], steps[i - 1]);
      if n in states[i].used && n !in states[i - 1].used { assert steps[i - 1].Link? && steps[i - 1].n == n; }
    }
  }

  lemma NoNodes()
    ensures NoneLost({}, {}, {}, map[], map[])
  {
  }

  lemma UsedStep(gc: nat, s: State, e: Step)
    requires Enabled(s, e)
    ensures Apply(gc, s, e).used == if e.Link? then s.used + {e.n} else s.used
    ensures Apply(gc, s, e).linked == if e.Link? then s.linked + {e.n} else if e.Unlink? then s.linked - {e.n}
      else s.linked
  {
    hide Leave, Reap, Added, Labels, Reach, Pending, Min, Local;
    if e.Exit? { LeaveShape(s, e.t, gc); }
    else if e.Clean? { ReapShape(s, e.t); }
  }

  // ---- what a thread inside its guard may have met ----

  /** Thread t entered its guard at step j and has not left it before step i. */
  ghost predicate Inside(steps: seq<Step>, t: nat, j: nat, i: nat) {
    j < i <= |steps| && steps[j] == Enter(t) && forall l :: j < l < i ==> steps[l] != Exit(t)
  }

  /** Thread t is still inside, with all it had met. */
  ghost predicate StillIn(s: State, s': State, t: nat) {
    Pc(s', t).In? && Reach(s, t) <= Reach(s', t) && s'.linked <= Reach(s', t)
  }

  lemma LinkInside(gc: nat, s: State, e: Step, t: nat)
    requires Enabled(s, e) && (e.Link? || e.Unlink?) && Pc(s, t).In? && s.linked <= Reach(s, t)
    ensures StillIn(s, Apply(gc, s, e), t)
  {
    assert t in s.pc;
  }

  /** A step that neither links nor leaves. */
  lemma OtherInside(s: State, s': State, u: nat, t: nat)
    requires Pc(s, t).In? && s.linked <= Reach(s, t) && s'.linked == s.linked
    requires u == t ==> s'.pc == s.pc
    requires s'.pc == s.pc || (u in s'.pc && s'.pc == s.pc[u := s'.pc[u]])
    requires s'.reach == s.reach || (u != t && u in s'.reach && s'.reach == s.reach[u := s'.reach[u]])
    ensures StillIn(s, s', t)
  {
  }

  lemma MoveInside(gc: nat, s: State, e: Step, t: nat)
    requires Enabled(s, e) && (e.Load? || e.Look? || e.Looked? || e.Retreat? || e.Enter?) && Pc(s, t).In?
      && s.linked <= Reach(s, t)
    ensures StillIn(s, Apply(gc, s, e), t)
  {
    hide StillIn;
    OtherInside(s, Apply(gc, s, e), e.t, t);
  }

  lemma WorkInside(gc: nat, s: State, e: Step, t: nat)
    requires Enabled(s, e) && (e.Mark? || e.Clean? || e.Exit?) && e != Exit(t) && Pc(s, t).In?
      && s.linked <= Reach(s, t)
    ensures StillIn(s, Apply(gc, s, e), t)
  {
    hide StillIn, Leave, Reap, Added;
    if e.Exit? { LeaveShape(s, e.t, gc); }
    else if e.Clean? { ReapShape(s, e.t); }
    OtherInside(s, Apply(gc, s, e), e.t, t);
  }

  lemma StaysInside(gc: nat, s: State, e: Step, t: nat)
    requires Enabled(s, e) && Pc(s, t).In? && e != Exit(t) && s.linked <= Reach(s, t)
    ensures StillIn(s, Apply(gc, s, e), t)
  {
    hide StillIn, Apply, Enabled;
    if e.Link? || e.Unlink? { LinkInside(gc, s, e, t); }
    else if e.Mark? || e.Clean? || e.Exit? { WorkInside(gc, s, e, t); }
    else { MoveInside(gc, s, e, t); }
  }

  lemma {:induction false} MetIsReached(gc: nat, states: seq<State>, steps: seq<Step>, t: nat, j: nat, i: nat)
    requires IsRun(gc, states, steps) && Inside(steps, t, j, i)
    ensures Pc(states[i], t).In? && forall l :: j < l <= i ==> states[l].linked <= Reach(states[i], t)
    decreases i
  {
    hide Reach, Apply, Enabled;
    if i == j + 1 {
      EntersWith(gc, states[j], t);
    } else {
      MetIsReached(gc, states, steps, t, j, i - 1);
      StaysInside(gc, states[i - 1], steps[i - 1], t);
    }
  }

  lemma EntersWith(gc: nat, s: State, t: nat)
    requires Enabled(s, Enter(t))
    ensures var s' := Apply(gc, s, Enter(t)); Pc(s', t).In? && s'.linked <= Reach(s', t)
  {
  }

  /** The nodes the steps have linked and not unlinked. */
  function LinkedAfter(steps: seq<Step>): set<nat> {
    if steps == [] then {}
    else
      var before := LinkedAfter(steps[..|steps| - 1]);
      match steps[|steps| - 1]
      case Link(_, n) => before + {n}
      case Unlink(_, n) => before - {n}
      case _ => before
  }

  lemma {:induction false} LinkedFollows(gc: nat, states: seq<State>, steps: seq<Step>, i: nat)
    requires IsRun(gc, states, steps) && i < |states|
    ensures states[i].linked == LinkedAfter(steps[..i])
  {
    if i > 0 {
      LinkedFollows(gc, states, steps, i - 1);
      assert steps[..i][..i - 1] == steps[..i - 1];
      hide Apply, Enabled;
      UsedStep(gc, states[i - 1], steps[i - 1]);
    }
  }

  /** No node that was linked at some moment since a thread entered its guard is freed before it leaves. */
  lemma MetIsNotFreed(gc: nat, states: seq<State>, steps: seq<Step>, t: nat, j: nat, l: nat, i: nat)
    requires IsRun(gc, states, steps) && Inside(steps, t, j, i) && j < l <= i
    ensures states[l].linked == LinkedAfter(steps[..l]) && states[l].linked !! states[i].freed
  {
    hide Reach;
    LinkedFollows(gc, states, steps, l);
    MetIsReached(gc, states, steps, t, j, i);
    ReclamationIsSafe(gc, states, steps, i);
  }

  /** No node is freed twice: it was not freed before, and the label being cleaned lists it once. */
  lemma FreedOnce(gc: nat, states: seq<State>, steps: seq<Step>, i: nat, t: nat, n: nat)
    requires IsRun(gc, states, steps) && i < |steps| && steps[i] == Clean(t)
    requires var s := states[i]; Pc(s, t).at < |Labels(s, t)| && n in Labels(s, t)[Pc(s, t).at].nodes
    ensures n !in states[i].freed && NoDup(Labels(states[i], t)[Pc(states[i], t).at].nodes)
  {
    RunInv(gc, states, steps, i);
    assert Waits(states[i].labels, t, Pc(states[i], t).at, n);
  }
}
