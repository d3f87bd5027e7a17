/** What holds in every run of the Ralloc machine, stated on its states alone. */
module RallocTheorems {
  import opened Common
  import opened CountedStack
  import opened RallocMachine
  import opened RallocInvariant
  import opened RallocFrames
  import opened RallocSteps
  import opened RallocDescs
  import opened RallocBlocks
  import opened RallocAnchors

  // ---- what a step does to the two descriptor stacks ----

  datatype StackOp = Nothing | Pop | Push(first: nat, last: nat)

  function Do(op: StackOp, l: seq<nat>): seq<nat> {
    match op
    case Nothing => l
    case Pop => if l == [] then [] else l[1..]
    case Push(first, last) => if first <= last then Range(first, last) + l else l
  }

  /** The operation a step performs on the list of free superblocks, read off the compare-and-swap. */
  function AvailOp(s: State, e: Step): StackOp {
    if !e.Run? || e.t !in s.pc then Nothing
    else
      match s.pc[e.t]
      case SbCas(_, was, _) => if was.ptr.Some? && s.availHead == was then Pop else Nothing
      case ChCas(first, last, _, was) => if !e.fail && s.availHead == was then Push(first, last) else Nothing
      case _ => Nothing
  }

  /** The same for the partial list of class sc. */
  function PartialOp(s: State, e: Step, sc: nat): StackOp {
    if !e.Run? || e.t !in s.pc then Nothing
    else
      match s.pc[e.t]
      case PopCas(k, was, _) => if k == sc && was.ptr.Some? && !e.fail
        && PartialHead(s, sc) == was then Pop else Nothing
      case PpCas(_, _, d, heap, was) => if heap == sc && !e.fail
        && PartialHead(s, sc) == was then Push(d, d) else Nothing
      case _ => Nothing
  }

  /** What one step does to the witness: both stacks change exactly as the operation says. */
  ghost predicate Refines(s: State, e: Step, g: Ghost, g': Ghost) {
    && g'.avail == Do(AvailOp(s, e), g.avail)
    && forall sc: nat :: Get(g'.partial, sc, []) == Do(PartialOp(s, e, sc), Get(g.partial, sc, []))
  }

  /** Step e, taken in s, retires superblock d. */
  predicate Retires(s: State, e: Step, d: nat) { e.Run? && e.t in s.pc && s.pc[e.t].Erase? && s.pc[e.t].d == d }

  /** Step e, taken in s, formats superblock d. */
  predicate Formats(s: State, e: Step, d: nat) { e.Run? && e.t in s.pc && s.pc[e.t].InitSb? && s.pc[e.t].d == d }

  /** Only formatting gives a superblock a class. */
  ghost predicate Formatted(s: State, s': State, e: Step) {
    forall d: nat :: d in s'.cls && d !in s.cls ==> Formats(s, e, d)
  }

  lemma StacksStill(s: State, e: Step, g: Ghost, g': Ghost)
    requires e.Run? && e.t in s.pc && g'.avail == g.avail && g'.partial == g.partial
    requires var p := s.pc[e.t]; !p.SbCas? && !p.ChCas? && !p.PopCas? && !p.PpCas?
    ensures Refines(s, e, g, g')
  {
  }

  lemma PushRefines(s: State, e: Step, g: Ghost, g': Ghost)
    requires e.Run? && e.t in s.pc && s.pc[e.t].PpCas? && g'.avail == g.avail
    requires
      var p := s.pc[e.t];
      g'.partial == if !e.fail
        && PartialHead(s, p.heap) == p.was then g.partial[p.heap := [p.d] + Get(g.partial, p.heap, [])]
                    else g.partial
    ensures Refines(s, e, g, g')
  {
    var p := s.pc[e.t];
    assert Range(p.d, p.d) == [p.d];
  }

  /** The steps of heap_pop_partial and malloc_from_partial. */
  lemma FillKeeps(c: Config, s: State, g: Ghost, e: Step) returns (g': Ghost)
    requires Inv(c, s, g) && e.Run? && Enabled(c, s, e)
    requires var p := s.pc[e.t]; p.Fill? || p.PopNext? || p.PopCas? || p.ResLoad? || p.ResCas?
    ensures Inv(c, Apply(c, s, e), g') && Refines(s, e, g, g')
  {
    hide Inv, BatchAt, PendAt, SeenAt, FillAt, Moved, Range, Grown, FreshChain, FreshLinks, FlushedAnchor, RunFrom;
    var t := e.t;
    g' := g;
    ThreadFacts(c, s, g, t);
    match s.pc[t] {
      case Fill(sc) => SawPartialKeeps(c, s, g, t, sc);
      case PopNext(_, was) => NextKeeps(c, s, g, t, PopCas(s.pc[t].sc, was, Get(s.nextPartial, was.ptr.value, None)));
      case PopCas(sc, was, _) =>
        if !e.fail && PartialHead(s, sc) == was {
          g' := PopPartialKeeps(c, s, g, t);
        } else {
          SawPartialKeeps(c, s, g, t, sc);
        }
      case ResLoad(sc, d) => ReserveLoadKeeps(c, s, g, t, sc, d);
      case ResCas(sc, d, seen) =>
        if seen.state.Empty? { g' := FoundEmptyKeeps(c, s, g, t); }
        else if !e.fail && AnchorOf(s, d) == seen { g' := ReserveKeeps(c, s, g, t); }
        else { ReserveLoadKeeps(c, s, g, t, sc, d); }
    }
  }

  /** The steps of small_sb_alloc on the free list. */
  lemma SbKeeps(c: Config, s: State, g: Ghost, e: Step) returns (g': Ghost)
    requires Inv(c, s, g) && e.Run? && Enabled(c, s, e)
    requires var p := s.pc[e.t]; p.SbLoad? || p.SbNext? || p.SbCas?
    ensures Inv(c, Apply(c, s, e), g') && Refines(s, e, g, g')
  {
    hide Inv, BatchAt, PendAt, SeenAt, FillAt, Moved, Range, Grown, FreshChain, FreshLinks, FlushedAnchor, RunFrom;
    var t := e.t;
    g' := g;
    ThreadFacts(c, s, g, t);
    match s.pc[t] {
      case SbLoad(sc) => SawAvailKeeps(c, s, g, t, sc);
      case SbNext(_, was) => NextKeeps(c, s, g, t, SbCas(s.pc[t].sc, was, Get(s.nextFree, was.ptr.value, None)));
      case SbCas(sc, was, _) =>
        if s.availHead == was { g' := PopAvailKeeps(c, s, g, t); } else { SawAvailKeeps(c, s, g, t, sc); }
    }
  }

  /** The steps of small_sb_alloc's expansion, malloc_from_newsb and pop_block. */
  lemma GrowthKeeps(c: Config, s: State, g: Ghost, e: Step) returns (g': Ghost)
    requires Inv(c, s, g) && e.Run? && Enabled(c, s, e)
    requires var p := s.pc[e.t]; p.GrowLoad? || p.GrowCheck? || p.GrowCas? || p.InitSb? || p.TakeBlock?
    ensures Inv(c, Apply(c, s, e), g') && Refines(s, e, g, g')
  {
    hide Inv, BatchAt, PendAt, SeenAt, FillAt, Moved, Range, Grown, FreshChain, FreshLinks, FlushedAnchor, RunFrom,
         Refines;
    var t := e.t;
    g' := g;
    ThreadFacts(c, s, g, t);
    match s.pc[t] {
      case GrowLoad(sc) => GrowKeeps(c, s, g, t, GrowCheck(sc, s.top));
      case GrowCheck(sc, base) => GrowKeeps(c, s, g, t,
          if s.availHead.ptr.Some? then GrowLoad(sc) else GrowCas(sc, base));
      case GrowCas(sc, base) =>
        if s.top == base && c.expand >= 2 {
          g' := GrowKeepsInv(c, s, g, t);
        } else {
          GrowKeeps(c, s, g, t, GrowLoad(sc));
        }
      case InitSb(_, _) => g' := InitKeeps(c, s, g, t, e.junk);
      case TakeBlock(_) => g' := TakeBlockKeeps(c, s, g, t);
    }
    StacksStill(s, e, g, g');
  }

  /** The steps of flush_cache. */
  lemma FlushKeeps(c: Config, s: State, g: Ghost, e: Step) returns (g': Ghost)
    requires Inv(c, s, g) && e.Run? && Enabled(c, s, e)
    requires var p := s.pc[e.t]; p.Flush? || Flushing(p)
    ensures Inv(c, Apply(c, s, e), g') && Refines(s, e, g, g')
  {
    hide Inv, BatchAt, PendAt, SeenAt, FillAt, Moved, Range, Grown, FreshChain, FreshLinks, FlushedAnchor, RunFrom,
         Refines;
    var t := e.t;
    g' := g;
    ThreadFacts(c, s, g, t);
    match s.pc[t] {
      case Flush(sc, pend) =>
        if CacheOf(s, t, sc).num > 0 { g' := CutBatchKeeps(c, s, g, t); } else { g' := FlushDoneKeeps(c, s, g, t); }
      case FlLoad(_, _, _) => FlushLoadKeeps(c, s, g, t);
      case FlLink(_, _, _, _) => LinkBatchKeeps(c, s, g, t);
      case FlCas(_, _, _, _) => g' := FlCasKeeps(c, s, g, t, e.fail, e.junk);
    }
    StacksStill(s, e, g, g');
  }

  /** The steps of heap_push_partial. */
  lemma PushKeeps(c: Config, s: State, g: Ghost, e: Step) returns (g': Ghost)
    requires Inv(c, s, g) && e.Run? && Enabled(c, s, e)
    requires var p := s.pc[e.t]; p.PpLoad? || p.PpLink? || p.PpCas?
    ensures Inv(c, Apply(c, s, e), g') && Refines(s, e, g, g')
  {
    hide Inv, BatchAt, PendAt, SeenAt, FillAt, Moved, Range, Grown, FreshChain, FreshLinks, FlushedAnchor, RunFrom,
         Refines;
    var t := e.t;
    g' := g;
    ThreadFacts(c, s, g, t);
    match s.pc[t] {
      case PpLoad(_, _, _) =>
        PushLoadKeeps(c, s, g, t);
        StacksStill(s, e, g, g');
      case PpLink(_, _, _, _, _) =>
        LinkPartialKeeps(c, s, g, t);
        StacksStill(s, e, g, g');
      case PpCas(_, _, _, heap, was) =>
        if !e.fail && PartialHead(s, heap) == was {
          g' := PushPartialKeeps(c, s, g, t);
        } else {
          PushLoadKeeps(c, s, g, t);
        }
        PushRefines(s, e, g, g');
    }
  }

  /** The steps of small_sb_retire and organize_sb_list. */
  lemma RetireKeeps(c: Config, s: State, g: Ghost, e: Step) returns (g': Ghost)
    requires Inv(c, s, g) && e.Run? && Enabled(c, s, e)
    requires var p := s.pc[e.t]; p.Erase? || p.ChLoad? || p.ChLink? || p.ChCas?
    ensures Inv(c, Apply(c, s, e), g') && Refines(s, e, g, g')
  {
    hide Inv, BatchAt, PendAt, SeenAt, FillAt, Moved, Range, Grown, FreshChain, FreshLinks, FlushedAnchor, RunFrom;
    var t := e.t;
    g' := g;
    ThreadFacts(c, s, g, t);
    match s.pc[t] {
      case Erase(_, _) => g' := EraseKeeps(c, s, g, t);
      case ChLoad(_, _, _) => ChainLoadKeeps(c, s, g, t);
      case ChLink(_, _, _, _) => LinkChainKeeps(c, s, g, t);
      case ChCas(_, _, _, was) =>
        if !e.fail && s.availHead == was { g' := PushChainKeeps(c, s, g, t); } else { ChainLoadKeeps(c, s, g, t); }
    }
  }

  lemma FlushDoneKeeps(c: Config, s: State, g: Ghost, t: nat) returns (g': Ghost)
    requires Inv(c, s, g) && t in s.pc && s.pc[t].Flush? && CacheOf(s, t, s.pc[t].sc).num == 0
    ensures g'.avail == g.avail && g'.partial == g.partial
    ensures
      var sc, pend := s.pc[t].sc, s.pc[t].pend;
      Inv(c, At(if pend.Some? then PushBlock(s, t, sc, pend.value) else s, t, Idle), g')
  {
    hide Inv;
    ThreadFacts(c, s, g, t);
    g' := g;
    var sc, pend := s.pc[t].sc, s.pc[t].pend;
    if pend.Some? {
      var b := pend.value;
      OwnerFacts(c, s, g, User);
      DisjointLists(g.owner, g.lists, Pending(t), User);
      UserFacts(c, s, g, b);
      assert s.(user := s.user - {b}) == s;
      g' := PushBlockKeeps(c, s, g, t, sc, b, Pending(t));
    } else {
      Stay(c, s, g, t, Idle);
    }
  }

  lemma FlCasKeeps(c: Config, s: State, g: Ghost, t: nat, fail: bool, junk: Loc) returns (g': Ghost)
    requires Inv(c, s, g) && t in s.pc && s.pc[t].FlCas?
    ensures g'.avail == g.avail && g'.partial == g.partial
    ensures Inv(c, Act(c, s, t, fail, junk), g')
  {
    hide Inv;
    var d := s.pc[t].run.head.sb;
    g' := g;
    if !fail && AnchorOf(s, d) == s.pc[t].seen {
      if s.pc[t].seen.state.Full? {
        g' := RefillFullKeeps(c, s, g, t);
      } else {
        RefillPartialKeeps(c, s, g, t);
        RefilledSame(g, t, d);
        g' := Refilled(g, t, d);
      }
    } else {
      FlushLoadKeeps(c, s, g, t);
    }
  }

  // ---- runs ----

  lemma StepKeeps(c: Config, s: State, g: Ghost, e: Step) returns (g': Ghost)
    requires Inv(c, s, g) && Enabled(c, s, e)
    ensures Inv(c, Apply(c, s, e), g') && Refines(s, e, g, g')
  {
    hide Inv, Refines;
    match e {
      case Run(t, _, _) =>
        var p := s.pc[t];
        if p.Fill? || p.PopNext? || p.PopCas? || p.ResLoad? || p.ResCas? { g' := FillKeeps(c, s, g, e); }
        else if p.SbLoad? || p.SbNext? || p.SbCas? { g' := SbKeeps(c, s, g, e); }
        else if p.GrowLoad? || p.GrowCheck? || p.GrowCas? || p.InitSb? || p.TakeBlock? {
          g' := GrowthKeeps(c, s, g, e);
        }
        else if p.Flush? || Flushing(p) { g' := FlushKeeps(c, s, g, e); }
        else if p.PpLoad? || p.PpLink? || p.PpCas? { g' := PushKeeps(c, s, g, e); }
        else { g' := RetireKeeps(c, s, g, e); }
      case _ => g' := ClientKeeps(c, s, g, e);
    }
  }

  lemma ClientKeeps(c: Config, s: State, g: Ghost, e: Step) returns (g': Ghost)
    requires Inv(c, s, g) && Enabled(c, s, e) && !e.Run?
    ensures Inv(c, Apply(c, s, e), g') && Refines(s, e, g, g')
  {
    hide Inv;
    g' := g;
    match e {
      case Malloc(t, sc) => EntryKeeps(c, s, g, t, sc, if CacheOf(s, t, sc).num == 0 then Fill(sc) else TakeBlock(sc));
      case FlushCache(t, sc) => EntryKeeps(c, s, g, t, sc, Flush(sc, None));
      case UserWrite(b, v) => UserWriteKeeps(c, s, g, b, v);
      case Free(t, b) =>
        var sc := Get(s.cls, b.sb, 0);
        if CacheOf(s, t, sc).num >= Get(c.maxcount, sc, 0) {
          g' := FreeFlushKeeps(c, s, g, t, b);
        } else {
          FreeFlushParts(c, s, g, t, b);
          g' := PushBlockKeeps(c, s, g, t, sc, b, User);
          var s1 := PushBlock(s.(user := s.user - {b}), t, sc, b);
          assert At(s1, t, Idle) == s1;
        }
    }
  }

  lemma InitHolds(c: Config, s: State) returns (g: Ghost)
    requires c.Valid() && Init(c, s)
    ensures Inv(c, s, g)
  {
    hide DomainOk, OwnersOk, UserOk, LinksOk, CachesOk, BatchesOk, PendsOk, SeenOk, FillsOk, AvailOk, SuperblocksOk,
         PlacesOk, PartialsOk, StacksOk, StartGhost;
    g := StartGhost(c);
    StartBlocks(c, s, g);
    StartDescs(c, s, g);
    StartThreads(c, s, g);
  }

  function StartGhost(c: Config): Ghost
    requires c.expand >= 2
  {
    Ghost(Range(1, c.expand - 1), map[], map d: nat | d < c.expand :: StartPlace(d), map[], map[])
  }

  lemma StartBlocks(c: Config, s: State, g: Ghost)
    requires Init(c, s) && g == StartGhost(c)
    ensures DomainOk(c, s.cls, g.owner) && OwnersOk(g.owner, g.lists) && UserOk(s.user, g.lists)
      && LinksOk(s.link, g.lists)
    ensures CachesOk(s.cls, s.cache, g.lists) && SuperblocksOk(c, s.cls, s.anchor, g.lists, g.place)
  {
    hide Range;
  }

  lemma StartDescs(c: Config, s: State, g: Ghost)
    requires Init(c, s) && g == StartGhost(c)
    ensures PlacesOk(s.top, s.cls, g.place, s.pc) && AvailOk(s.availHead, s.nextFree, g.avail, g.place)
    ensures PartialsOk(s.partialHead, s.nextPartial, g.partial, g.place, s.cls)
  {
    hide Range, FreshChain;
    InitList(c.expand);
    assert forall t: nat :: PcOf(s.pc, t) == Idle;
  }

  lemma StartThreads(c: Config, s: State, g: Ghost)
    requires Init(c, s) && g == StartGhost(c)
    ensures BatchesOk(s.link, s.cls, g.lists, s.pc) && PendsOk(s.cls, g.lists, s.pc) && SeenOk(c, s.cls, s.anchor, s.pc)
    ensures StacksOk(s.availHead, s.nextFree, g.avail, s.partialHead, s.nextPartial, g.partial, s.pc)
      && FillsOk(s.cache, s.pc)
  {
    hide Range, FreshChain;
    assert forall t: nat :: PcOf(s.pc, t) == Idle;
  }

  function StartPlace(d: nat): Place { if d == 0 then Skipped else Avail }

  lemma InitList(n: nat)
    requires n >= 2
    ensures IsList(FreshChain(1, n - 1), Some(1), Range(1, n - 1))
  {
    var next, l := FreshChain(1, n - 1), Range(1, n - 1);
    forall i | 0 <= i < |l| ensures l[i] in next && next[l[i]] == PtrAt(l, i + 1) {
      assert next[l[i]] == FreshNext(n - 1, l[i]);
    }
  }

  /** The invariant holds in every state of every run. */
  lemma {:induction false} RunInv(c: Config, states: seq<State>, steps: seq<Step>, i: nat) returns (g: Ghost)
    requires IsRun(c, states, steps) && i < |states|
    ensures Inv(c, states[i], g)
  {
    if i == 0 {
      g := InitHolds(c, states[0]);
    } else {
      var h := RunInv(c, states, steps, i - 1);
      g := StepKeeps(c, states[i - 1], h, steps[i - 1]);
    }
  }

  // ---- exclusive ownership ----

  /** The first n blocks of a list in memory. */
  function Walk(link: map<Loc, Loc>, head: Loc, n: nat): seq<Loc>
    decreases n
  {
    if n == 0 then [] else [head] + Walk(link, Word(link, head), n - 1)
  }

  lemma {:induction false} WalkSpells(link: map<Loc, Loc>, head: Loc, l: seq<Loc>)
    requires Chained(link, l) && StartsAt(l, head)
    ensures Walk(link, head, |l|) == l
    decreases |l|
  {
    if l != [] {
      ChainedSplit(link, l, 1);
      WalkSpells(link, Word(link, head), l[1..]);
    }
  }

  /** How many blocks the free list of superblock d has; an empty one's anchor counts one too few. */
  function FreeCount(c: Config, s: State, d: nat): nat {
    if AnchorOf(s, d).state.Empty? then MaxOf(c, s.cls, d) else AnchorOf(s, d).count
  }

  /** The blocks that memory shows in the hands of o. */
  function Holding(c: Config, s: State, o: Owner): seq<Loc> {
    match o
    case User => []
    case InCache(t, sc) => Walk(s.link, CacheOf(s, t, sc).head, CacheOf(s, t, sc).num)
    case InBatch(t) =>
      if t in s.pc && Flushing(s.pc[t]) then Walk(s.link, s.pc[t].run.head, s.pc[t].run.len) else []
    case Pending(t) => if t in s.pc && PendOf(s.pc[t]).Some? then [PendOf(s.pc[t]).value] else []
    case InFree(d) => if d in s.cls then Walk(s.link, Loc(d, AnchorOf(s, d).avail), FreeCount(c, s, d)) else []
  }

  predicate HeldIn(c: Config, s: State, o: Owner, b: Loc) {
    if o.User? then b in s.user else b in Holding(c, s, o)
  }

  lemma HoldingIsList(c: Config, s: State, g: Ghost, o: Owner)
    requires Inv(c, s, g) && o != User
    ensures Holding(c, s, o) == ListOf(g.lists, o)
  {
    hide Inv;
    OwnerFacts(c, s, g, o);
    var l := ListOf(g.lists, o);
    match o {
      case InCache(t, sc) =>
        CacheFacts(c, s, g, t, sc);
        WalkSpells(s.link, CacheOf(s, t, sc).head, l);
      case InBatch(t) =>
        ThreadAnyFacts(c, s, g, t);
        if t in s.pc && Flushing(s.pc[t]) { WalkSpells(s.link, s.pc[t].run.head, l); }
      case Pending(t) => ThreadAnyFacts(c, s, g, t);
      case InFree(d) =>
        SuperblockFacts(c, s, g, d);
        if d in s.cls { WalkSpells(s.link, Loc(d, AnchorOf(s, d).avail), l); }
    }
  }

  lemma ThreadAnyFacts(c: Config, s: State, g: Ghost, t: nat)
    requires Inv(c, s, g)
    ensures BatchAt(s.link, s.cls, g.lists, PcOf(s.pc, t), t) && PendAt(s.cls, g.lists, PcOf(s.pc, t), t)
  {
    hide DomainOk, OwnersOk, UserOk, LinksOk, CachesOk, SuperblocksOk, AvailOk, PartialsOk, PlacesOk, BatchAt, PendAt,
         SeenAt, StackAt, FillAt;
  }

  lemma HeldInIsOwner(c: Config, s: State, g: Ghost, o: Owner, b: Loc)
    requires Inv(c, s, g)
    ensures HeldIn(c, s, o, b) <==> Holds(g.owner, b, o)
  {
    hide Inv, Holding;
    OwnerFacts(c, s, g, o);
    if o == User { UserFacts(c, s, g, b); } else { HoldingIsList(c, s, g, o); }
  }

  lemma BlocksAreOwned(c: Config, s: State, g: Ghost, b: Loc)
    requires Inv(c, s, g)
    ensures b in g.owner <==> b.sb in s.cls && b.idx < MaxOf(c, s.cls, b.sb)
  {
    hide OwnersOk, UserOk, LinksOk, CachesOk, BatchesOk, PendsOk, SeenOk, FillsOk, AvailOk, SuperblocksOk, PlacesOk,
         PartialsOk, StacksOk;
  }

  /**
   * In every state of every run, every block of every small superblock in use is in the hands of
   * exactly one of: the user, one thread's cache, one batch being flushed, one pending free, or its
   * superblock's free list; nothing else is in anybody's hands, and no list has a block twice.
   */
  lemma ExclusiveOwnership(c: Config, states: seq<State>, steps: seq<Step>, i: nat)
    requires IsRun(c, states, steps) && i < |states|
    ensures forall b: Loc :: b.sb in states[i].cls && b.idx < MaxOf(c, states[i].cls, b.sb) ==>
      exists o :: HeldIn(c, states[i], o, b)
    ensures forall b, o :: HeldIn(c, states[i], o, b) ==> b.sb in states[i].cls && b.idx < MaxOf(c, states[i].cls, b.sb)
    ensures forall b, o, o' :: HeldIn(c, states[i], o, b) && HeldIn(c, states[i], o', b) ==> o == o'
    ensures forall o :: NoDup(Holding(c, states[i], o))
  {
    var s := states[i];
    var g := RunInv(c, states, steps, i);
    hide Inv, Holding, HeldIn;
    forall b: Loc | b.sb in s.cls && b.idx < MaxOf(c, s.cls, b.sb) ensures exists o :: HeldIn(c, s, o, b) {
      BlocksAreOwned(c, s, g, b);
      HeldInIsOwner(c, s, g, g.owner[b], b);
    }
    forall b, o | HeldIn(c, s, o, b) ensures b.sb in s.cls && b.idx < MaxOf(c, s.cls, b.sb) {
      HeldInIsOwner(c, s, g, o, b);
      BlocksAreOwned(c, s, g, b);
    }
    forall b, o, o' | HeldIn(c, s, o, b) && HeldIn(c, s, o', b) ensures o == o' {
      HeldInIsOwner(c, s, g, o, b);
      HeldInIsOwner(c, s, g, o', b);
    }
    forall o ensures NoDup(Holding(c, s, o)) {
      if o == User { HoldingUser(c, s); } else { HoldingIsList(c, s, g, o); OwnerFacts(c, s, g, o); }
    }
  }

  lemma HoldingUser(c: Config, s: State)
    ensures NoDup(Holding(c, s, User))
  {
  }

  /** do_malloc returns a block of the right class that the user does not hold already. */
  lemma MallocIsFresh(c: Config, states: seq<State>, steps: seq<Step>, i: nat)
    requires IsRun(c, states, steps) && i < |steps|
    requires steps[i].Run? && steps[i].t in states[i].pc && states[i].pc[steps[i].t].TakeBlock?
    ensures
      var s, t := states[i], steps[i].t;
      var b, sc := CacheOf(s, t, s.pc[t].sc).head, s.pc[t].sc;
      && b !in s.user && states[i + 1].user == s.user + {b}
      && Holds(s.cls, b.sb, sc) && b.idx < MaxOf(c, s.cls, b.sb)
  {
    var s, t := states[i], steps[i].t;
    var g := RunInv(c, states, steps, i);
    hide Inv;
    var sc := s.pc[t].sc;
    TakeBlockParts(c, s, g, t);
    BlocksAreOwned(c, s, g, CacheOf(s, t, sc).head);
    assert ListOf(g.lists, InCache(t, sc))[0] in ListOf(g.lists, InCache(t, sc));
  }

  // ---- the descriptor stacks ----

  /** The list of free superblocks spelled out by memory. */
  ghost predicate IsAvail(s: State, l: seq<nat>) { IsList(s.nextFree, s.availHead.ptr, l) }

  /** The partial list of class sc spelled out by memory. */
  ghost predicate IsPartial(s: State, sc: nat, l: seq<nat>) { IsList(s.nextPartial, PartialHead(s, sc).ptr, l) }

  /** The partial list of class sc is well formed: finite, ending in null, with nothing on it twice. */
  ghost predicate HasPartial(s: State, sc: nat) { exists l :: IsPartial(s, sc, l) }

  /**
   * ABA freedom: although a pop leaves the counter alone, in every run every step acts on both
   * descriptor stacks like the sequential push or pop its compare-and-swap stands for.
   */
  lemma StacksAreSequential(c: Config, states: seq<State>, steps: seq<Step>, i: nat)
    requires IsRun(c, states, steps) && i < |steps|
    ensures exists l :: IsAvail(states[i], l)
    ensures forall sc: nat :: HasPartial(states[i], sc)
    ensures forall l :: IsAvail(states[i], l) ==> IsAvail(states[i + 1], Do(AvailOp(states[i], steps[i]), l))
    ensures forall sc: nat, l :: IsPartial(states[i], sc, l) ==>
      IsPartial(states[i + 1], sc, Do(PartialOp(states[i], steps[i], sc), l))
  {
    var s, s', e := states[i], states[i + 1], steps[i];
    var g := RunInv(c, states, steps, i);
    var g' := StepKeeps(c, s, g, e);
    hide Inv, Apply, AvailOp, PartialOp, Do;
    assert IsAvail(s, g.avail) by { AvailFacts(c, s, g); }
    forall l | IsAvail(s, l) ensures IsAvail(s', Do(AvailOp(s, e), l)) {
      UniqueList(s.nextFree, s.availHead.ptr, l, g.avail);
      AvailFacts(c, s', g');
    }
    forall sc: nat ensures HasPartial(s, sc) {
      PartialFacts(c, s, g, sc);
      assert IsPartial(s, sc, Get(g.partial, sc, []));
    }
    forall sc: nat, l | IsPartial(s, sc, l) ensures IsPartial(s', sc, Do(PartialOp(s, e, sc), l)) {
      PartialFacts(c, s, g, sc);
      UniqueList(s.nextPartial, PartialHead(s, sc).ptr, l, Get(g.partial, sc, []));
      PartialFacts(c, s', g', sc);
    }
  }

  /** A pop whose compare-and-swap is about to succeed holds the head's current successor. */
  lemma PopSeesSuccessor(c: Config, states: seq<State>, steps: seq<Step>, i: nat, t: nat)
    requires IsRun(c, states, steps) && i < |states| && t in states[i].pc
    ensures
      var s := states[i];
      var p := s.pc[t];
      && (p.PopCas? && PartialHead(s, p.sc) == p.was ==>
        p.was.ptr.Some? && Get(s.nextPartial, p.was.ptr.value, None) == p.nx)
      && (p.SbCas? && s.availHead == p.was ==> p.was.ptr.Some? && Get(s.nextFree, p.was.ptr.value, None) == p.nx)
  {
    var g := RunInv(c, states, steps, i);
    hide Inv;
    ThreadFacts(c, states[i], g, t);
  }

  // ---- the life cycle of a descriptor ----

  /** Thread t has taken descriptor d off every list and is about to fill, push or retire it. */
  predicate InHand(s: State, t: nat, d: nat) {
    t in s.pc && (OwnsPopped(s.pc[t], d) || OwnsPushing(s.pc[t], d) || OwnsRetiring(s.pc[t], d))
  }

  ghost predicate OnPartial(s: State, sc: nat, d: nat) { exists l :: IsPartial(s, sc, l) && d in l }

  ghost predicate OnAvail(s: State, d: nat) { exists l :: IsAvail(s, l) && d in l }

  /**
   * In every state of every run a descriptor on the free-superblock list is not in use; one on a
   * partial list is in use, of that class and not full; a full one is on neither list and in no
   * thread's hands; one that is neither full nor idle is on its partial list or in exactly one
   * thread's hands; and a superblock about to be retired is empty.
   */
  lemma DescriptorLifeCycle(c: Config, states: seq<State>, steps: seq<Step>, i: nat, d: nat)
    requires IsRun(c, states, steps) && i < |states|
    ensures OnAvail(states[i], d) ==> d !in states[i].cls && d < states[i].top
    ensures forall sc: nat :: OnPartial(states[i], sc, d) ==>
              Holds(states[i].cls, d, sc)
                && (AnchorOf(states[i], d).state.Partial? || AnchorOf(states[i], d).state.Empty?)
    ensures d in states[i].cls && AnchorOf(states[i], d).state.Full? ==>
              (forall sc: nat :: !OnPartial(states[i], sc, d)) && (forall t: nat :: !InHand(states[i], t, d))
    ensures d in states[i].cls && !AnchorOf(states[i], d).state.Full? ==>
              (OnPartial(states[i], states[i].cls[d], d) <==> forall t: nat :: !InHand(states[i], t, d))
    ensures forall t: nat, u: nat :: InHand(states[i], t, d) && InHand(states[i], u, d) ==> t == u
    ensures forall t: nat :: t in states[i].pc && OwnsRetiring(states[i].pc[t], d) ==>
      d in states[i].cls && AnchorOf(states[i], d).state.Empty?
  {
    var s := states[i];
    var g := RunInv(c, states, steps, i);
    hide Inv, OnAvail, OnPartial, InHand, IsList;
    SuperblockFacts(c, s, g, d);
    OnAvailMeans(c, s, g, d);
    forall sc: nat ensures OnPartial(s, sc, d) <==> Holds(g.place, d, InPartial) && Holds(s.cls, d, sc) {
      OnPartialMeans(c, s, g, sc, d);
    }
    forall t: nat
      ensures InHand(s, t, d) <==>
        Holds(g.place, d, Popped(t)) || Holds(g.place, d, Pushing(t)) || Holds(g.place, d, Retiring(t))
    {
      InHandMeans(c, s, g, t, d);
    }
    forall t: nat | t in s.pc && OwnsRetiring(s.pc[t], d) ensures d in s.cls && AnchorOf(s, d).state.Empty? {
      PlaceFacts(c, s, g, t, d);
    }
    if d in s.cls {
      assert d in g.place && InUse(g.place[d]);
      var w := g.place[d];
      if w.Popped? || w.Pushing? || w.Retiring? { assert InHand(s, w.t, d); }
    }
  }

  lemma OnAvailMeans(c: Config, s: State, g: Ghost, d: nat)
    requires Inv(c, s, g)
    ensures OnAvail(s, d) <==> Holds(g.place, d, Avail)
    ensures Holds(g.place, d, Avail) ==> d !in s.cls && d < s.top
    ensures d in s.cls ==> d in g.place && InUse(g.place[d])
  {
    hide DomainOk, OwnersOk, UserOk, LinksOk, CachesOk, BatchesOk, PendsOk, SeenOk, FillsOk, SuperblocksOk, PartialsOk,
         StacksOk, PlaceAt, IsList;
    assert IsAvail(s, g.avail);
    forall l | IsAvail(s, l) ensures l == g.avail { UniqueList(s.nextFree, s.availHead.ptr, l, g.avail); }
  }

  lemma OnPartialMeans(c: Config, s: State, g: Ghost, sc: nat, d: nat)
    requires Inv(c, s, g)
    ensures OnPartial(s, sc, d) <==> Holds(g.place, d, InPartial) && Holds(s.cls, d, sc)
  {
    hide Inv, IsList;
    PartialFacts(c, s, g, sc);
    var l0 := Get(g.partial, sc, []);
    assert IsPartial(s, sc, l0);
    forall l | IsPartial(s, sc, l) ensures l == l0 { UniqueList(s.nextPartial, PartialHead(s, sc).ptr, l, l0); }
  }

  lemma InHandMeans(c: Config, s: State, g: Ghost, t: nat, d: nat)
    requires Inv(c, s, g)
    ensures InHand(s, t, d) <==>
      Holds(g.place, d, Popped(t)) || Holds(g.place, d, Pushing(t)) || Holds(g.place, d, Retiring(t))
  {
    hide DomainOk, OwnersOk, UserOk, LinksOk, CachesOk, BatchesOk, PendsOk, SeenOk, FillsOk, SuperblocksOk, PartialsOk,
         StacksOk, AvailOk;
    assert PlaceAt(g.place, PcOf(s.pc, t), t, d);
  }

  /** A superblock is retired at most once each time it has been put to use. */
  lemma RetiredOnce(c: Config, states: seq<State>, steps: seq<Step>, i: nat, j: nat, d: nat)
    requires IsRun(c, states, steps) && i < j < |steps|
    requires Retires(states[i], steps[i], d) && Retires(states[j], steps[j], d)
    ensures exists k :: i < k < j && Formats(states[k], steps[k], d)
  {
    var g := RunInv(c, states, steps, j);
    assert d in states[j].cls by { hide Inv; EraseParts(c, states[j], g, steps[j].t); }
    assert d !in states[i + 1].cls;
    var k := FirstUse(c, states, steps, i + 1, j, d);
  }

  /** Only formatting and retiring change the classes. */
  lemma ClassesStay(c: Config, s: State, t: nat, fail: bool)
    requires t in s.pc
    ensures ActPop(s, t, fail).cls == s.cls && ActReserve(c, s, t, fail).cls == s.cls && ActSb(s, t).cls == s.cls
      && ActGrow(c, s, t).cls == s.cls
  {
    hide At, WithCache, PushBlock, AnchorOf, MaxOf, RunFrom, CacheOf, Word, PartialHead, FreshLinks, FreshChain,
         SawPartial, SawAvail;
  }

  lemma ClassesStayToo(c: Config, s: State, t: nat, fail: bool)
    requires t in s.pc
    ensures ActCut(s, t).cls == s.cls && ActFlush(c, s, t, fail).cls == s.cls && ActPush(s, t, fail).cls == s.cls
  {
    hide At, WithCache, PushBlock, AnchorOf, MaxOf, RunFrom, CacheOf, Word, PartialHead, FreshLinks, FreshChain,
         SawPartial, SawAvail;
  }

  lemma ClassesChange(c: Config, s: State, t: nat, fail: bool, junk: Loc)
    requires t in s.pc
    ensures ActCache(c, s, t, junk).cls == if s.pc[t].InitSb? then s.cls[s.pc[t].d := s.pc[t].sc] else s.cls
    ensures ActRetire(s, t, fail).cls == if s.pc[t].Erase? then s.cls - {s.pc[t].d} else s.cls
  {
    hide At, WithCache, PushBlock, AnchorOf, MaxOf, RunFrom, CacheOf, Word, PartialHead, FreshLinks, FreshChain,
         SawPartial, SawAvail;
  }

  lemma OnlyInitFormats(c: Config, s: State, e: Step)
    requires Enabled(c, s, e)
    ensures Formatted(s, Apply(c, s, e), e)
  {
    hide At, PushBlock, ActPop, ActReserve, ActSb, ActGrow, ActCache, ActCut, ActFlush, ActPush, ActRetire;
    if e.Run? {
      ClassesStay(c, s, e.t, e.fail);
      ClassesStayToo(c, s, e.t, e.fail);
      ClassesChange(c, s, e.t, e.fail, e.junk);
    }
  }

  lemma {:induction false} FirstUse(c: Config, states: seq<State>, steps: seq<Step>, i: nat, j: nat, d: nat)
        returns (k: nat)
    requires IsRun(c, states, steps) && i <= j < |steps|
    requires d !in states[i].cls && d in states[j].cls
    ensures i <= k < j && Formats(states[k], steps[k], d)
    decreases j - i
  {
    hide Apply, Enabled;
    if d in states[i + 1].cls {
      OnlyInitFormats(c, states[i], steps[i]);
      k := i;
    } else {
      k := FirstUse(c, states, steps, i + 1, j, d);
    }
  }

  // ---- the assertions in the code ----

  /** The assertions of fill_cache, flush_cache, heap_push_partial and malloc_from_partial never fail. */
  lemma AssertionsHold(c: Config, states: seq<State>, steps: seq<Step>, i: nat, t: nat)
    requires IsRun(c, states, steps) && i < |states| && t in states[i].pc
    ensures
      var s := states[i];
      var p := s.pc[t];
      && (p.FlLink? || p.FlCas? ==>
        p.seen.count < MaxOf(c, s.cls, p.run.head.sb) && p.run.head.idx < MaxOf(c, s.cls, p.run.head.sb))
      && (p.PpLink? || p.PpCas? ==> p.was.ptr != Some(p.d))
      && (p.ResCas? && !p.seen.state.Empty? ==> p.seen.state.Partial? && CacheOf(s, t, p.sc).num == 0)
      && (p.ResCas? && p.seen.state.Partial? && AnchorOf(s, p.d) == p.seen ==> p.seen.avail < MaxOf(c, s.cls, p.d))
      && (p.InitSb? ==> CacheOf(s, t, p.sc).num == 0)
      && (p.TakeBlock? ==> CacheOf(s, t, p.sc).num > 0)
  {
    var s := states[i];
    var g := RunInv(c, states, steps, i);
    hide Inv;
    var p := s.pc[t];
    ThreadFacts(c, s, g, t);
    if Flushing(p) {
      assert p.run.head in ListOf(g.lists, InBatch(t));
      OwnedHaveClass(c, s, g, InBatch(t), p.run.head);
    } else if p.ResCas? {
      SuperblockFacts(c, s, g, p.d);
      var l := ListOf(g.lists, InFree(p.d));
      if l != [] && AnchorOf(s, p.d) == p.seen { assert l[0] in l; OwnedHaveClass(c, s, g, InFree(p.d), l[0]); }
    }
  }
}
