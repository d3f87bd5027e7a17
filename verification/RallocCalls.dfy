/** What a whole call of malloc, free or flush_cache does, from the step that starts it on, in every run. */
module RallocCalls {
  import opened Common
  import opened CountedStack
  import opened RallocMachine
  import opened RallocInvariant
  import opened RallocSteps
  import opened RallocBlocks
  import opened RallocTheorems

  predicate Starts(e: Step, t: nat) { (e.Malloc? || e.Free? || e.FlushCache?) && e.t == t }

  /** Thread t starts nothing between steps j and i: they belong to the same call. */
  ghost predicate SameCall(steps: seq<Step>, t: nat, j: nat, i: nat) {
    j < i <= |steps| && forall l :: j < l < i ==> !Starts(steps[l], t)
  }

  predicate Runs(e: Step, t: nat) { e.Run? && e.t == t }

  /** Thread t's own steps from a up to b leave the user's blocks alone. */
  ghost predicate Idles(states: seq<State>, steps: seq<Step>, t: nat, a: nat, b: nat) {
    && |states| == |steps| + 1 && b <= |steps|
    && forall l :: a <= l < b && Runs(steps[l], t) ==> states[l + 1].user == states[l].user
  }

  // ---- where a thread can be, and what its own steps do ----

  /** Thread t is in the middle of a malloc of class sc. */
  predicate Mallocs(p: PC, sc: nat) {
    match p
    case Erase(_, k) => ForMalloc(k, sc)
    case ChLoad(_, _, k) => ForMalloc(k, sc)
    case ChLink(_, _, k, _) => ForMalloc(k, sc)
    case ChCas(_, _, k, _) => ForMalloc(k, sc)
    case _ => InMalloc(p) && p.sc == sc
  }

  predicate InMalloc(p: PC) {
    || p.Fill? || p.PopNext? || p.PopCas? || p.ResLoad? || p.ResCas? || p.SbLoad? || p.SbNext? || p.SbCas?
    || p.GrowLoad? || p.GrowCheck? || p.GrowCas? || p.InitSb? || p.TakeBlock?
  }

  predicate ForMalloc(k: Cont, sc: nat) { !k.ThenFlush? && k.sc == sc }

  /** Thread t is in the middle of flushing its cache of class sc, with block pend to be put there after. */
  predicate Flushes(p: PC, sc: nat, pend: Option<Loc>) {
    match p
    case Flush(k, q) => k == sc && q == pend
    case FlLoad(k, q, _) => k == sc && q == pend
    case FlLink(k, q, _, _) => k == sc && q == pend
    case FlCas(k, q, _, _) => k == sc && q == pend
    case PpLoad(k, q, _) => k == sc && q == pend
    case PpLink(k, q, _, _, _) => k == sc && q == pend
    case PpCas(k, q, _, _, _) => k == sc && q == pend
    case Erase(_, k) => k == ThenFlush(sc, pend)
    case ChLoad(_, _, k) => k == ThenFlush(sc, pend)
    case ChLink(_, _, k, _) => k == ThenFlush(sc, pend)
    case ChCas(_, _, k, _) => k == ThenFlush(sc, pend)
    case _ => false
  }

  /** What the cache of class sc holds when the call is done: the freed block on top, or nothing. */
  predicate Flushed(s: State, t: nat, sc: nat, pend: Option<Loc>) {
    var q := CacheOf(s, t, sc);
    match pend
    case Some(b) => q.num > 0 && q.head == b
    case None => q.num == 0
  }

  /** Whatever a thread at p is in the middle of, at p' it still is. */
  ghost predicate Follows(p: PC, p': PC) {
    && (forall sc: nat :: Mallocs(p, sc) ==> Mallocs(p', sc))
    && (forall sc: nat, pend :: Flushes(p, sc, pend) ==> Flushes(p', sc, pend))
  }

  /** From s to s' only thread u has moved, and only u's caches have changed. */
  ghost predicate OnlyMoves(s: State, s': State, u: nat) {
    && u in s.pc && u in s'.pc
    && (forall t: nat :: t != u ==> (t in s'.pc <==> t in s.pc) && (t in s.pc ==> s'.pc[t] == s.pc[t]))
    && forall t: nat, sc: nat :: t != u ==> CacheOf(s', t, sc) == CacheOf(s, t, sc)
  }

  /** Thread u goes on with what it is doing. */
  ghost predicate GoesOn(s: State, s': State, u: nat) {
    OnlyMoves(s, s', u) && s'.user == s.user && Follows(s.pc[u], s'.pc[u])
  }

  lemma AtGoesOn(s: State, s1: State, u: nat, p: PC)
    requires u in s.pc && s1.pc == s.pc && s1.cache == s.cache && s1.user == s.user && Follows(s.pc[u], p)
    ensures GoesOn(s, At(s1, u, p), u)
  {
    hide Follows;
  }

  lemma CachedGoesOn(s: State, s1: State, u: nat, sc: nat, q: Cache, p: PC)
    requires u in s.pc && s1.pc == s.pc && s1.cache == s.cache && s1.user == s.user && Follows(s.pc[u], p)
    ensures GoesOn(s, At(WithCache(s1, u, sc, q), u, p), u)
  {
    hide Follows;
  }

  lemma StaysOn(s: State, u: nat)
    requires u in s.pc
    ensures GoesOn(s, s, u)
  {
    hide Mallocs, Flushes;
  }

  lemma PopGoesOn(s: State, t: nat, fail: bool)
    requires t in s.pc
    requires var p := s.pc[t]; p.Fill? || p.PopNext? || p.PopCas?
    ensures GoesOn(s, ActPop(s, t, fail), t)
  {
    hide GoesOn;
    StaysOn(s, t);
    match s.pc[t] {
      case Fill(sc) => AtGoesOn(s, s, t, SawPartial(sc, PartialHead(s, sc)));
      case PopNext(sc, was) =>
        if was.ptr.Some? { AtGoesOn(s, s, t, PopCas(sc, was, Get(s.nextPartial, was.ptr.value, None))); }
      case PopCas(sc, was, nx) =>
        if was.ptr.Some? {
          AtGoesOn(s, s.(partialHead := s.partialHead[sc := Head(nx, was.cnt)]), t, ResLoad(sc, was.ptr.value));
          AtGoesOn(s, s, t, SawPartial(sc, PartialHead(s, sc)));
        }
    }
  }

  lemma ReserveGoesOn(c: Config, s: State, t: nat, fail: bool)
    requires t in s.pc
    requires var p := s.pc[t]; p.ResLoad? || p.ResCas?
    ensures GoesOn(s, ActReserve(c, s, t, fail), t)
  {
    hide GoesOn;
    match s.pc[t] {
      case ResLoad(sc, d) => AtGoesOn(s, s, t, ResCas(sc, d, AnchorOf(s, d)));
      case ResCas(sc, d, seen) =>
        AtGoesOn(s, s, t, Erase(d, ThenFill(sc)));
        AtGoesOn(s, s, t, ResCas(sc, d, AnchorOf(s, d)));
        CachedGoesOn(s, s.(anchor := s.anchor[d := Anchor(MaxOf(c, s.cls, d), 0, Full)]), t, sc,
            Cache(Loc(d, seen.avail), seen.count), if seen.count == 0 then SbLoad(sc) else TakeBlock(sc));
    }
  }

  lemma SbGoesOn(s: State, t: nat)
    requires t in s.pc
    requires var p := s.pc[t]; p.SbLoad? || p.SbNext? || p.SbCas?
    ensures GoesOn(s, ActSb(s, t), t)
  {
    hide GoesOn;
    StaysOn(s, t);
    match s.pc[t] {
      case SbLoad(sc) => AtGoesOn(s, s, t, SawAvail(sc, s.availHead));
      case SbNext(sc, was) =>
        if was.ptr.Some? { AtGoesOn(s, s, t, SbCas(sc, was, Get(s.nextFree, was.ptr.value, None))); }
      case SbCas(sc, was, nx) =>
        if was.ptr.Some? {
          AtGoesOn(s, s.(availHead := Head(nx, was.cnt)), t, InitSb(sc, was.ptr.value));
          AtGoesOn(s, s, t, SawAvail(sc, s.availHead));
        }
    }
  }

  lemma GrowGoesOn(c: Config, s: State, t: nat)
    requires t in s.pc
    requires var p := s.pc[t]; p.GrowLoad? || p.GrowCheck? || p.GrowCas?
    ensures GoesOn(s, ActGrow(c, s, t), t)
  {
    hide GoesOn, FreshChain;
    match s.pc[t] {
      case GrowLoad(sc) => AtGoesOn(s, s, t, GrowCheck(sc, s.top));
      case GrowCheck(sc, base) => AtGoesOn(s, s, t, if s.availHead.ptr.Some? then GrowLoad(sc) else GrowCas(sc, base));
      case GrowCas(sc, base) =>
        AtGoesOn(s, s, t, GrowLoad(sc));
        if c.expand >= 2 {
          AtGoesOn(s, s.(top := base + c.expand, nextFree := s.nextFree + FreshChain(base + 1, base + c.expand - 1)), t,
              ChLoad(base + 1, base + c.expand - 1, ThenInit(sc, base)));
        }
    }
  }

  lemma InitGoesOn(c: Config, s: State, t: nat, junk: Loc)
    requires t in s.pc && s.pc[t].InitSb?
    ensures GoesOn(s, ActCache(c, s, t, junk), t)
  {
    hide GoesOn, FreshLinks;
    var sc, d := s.pc[t].sc, s.pc[t].d;
    var m := Get(c.maxcount, sc, 0);
    CachedGoesOn(s, s.(cls := s.cls[d := sc], link := s.link + FreshLinks(d, m, junk),
        anchor := s.anchor[d := Anchor(m, 0, Full)]), t, sc, Cache(Loc(d, 0), m), TakeBlock(sc));
  }

  lemma CutGoesOn(s: State, t: nat)
    requires t in s.pc && s.pc[t].Flush? && CacheOf(s, t, s.pc[t].sc).num > 0
    ensures GoesOn(s, ActCut(s, t), t)
  {
    hide GoesOn, RunFrom;
    var sc, pend := s.pc[t].sc, s.pc[t].pend;
    var q := CacheOf(s, t, sc);
    var (tail, n) := RunFrom(s.link, q.head, q.head.sb, q.num - 1);
    CachedGoesOn(s, s, t, sc, Cache(Word(s.link, tail), if n + 1 <= q.num then q.num - (n + 1) else 0),
        FlLoad(sc, pend, Batch(q.head, tail, n + 1)));
  }

  lemma FlushGoesOn(c: Config, s: State, t: nat, fail: bool)
    requires t in s.pc
    requires var p := s.pc[t]; p.FlLoad? || p.FlLink? || p.FlCas?
    ensures GoesOn(s, ActFlush(c, s, t, fail), t)
  {
    hide GoesOn, FlushedAnchor;
    match s.pc[t] {
      case FlLoad(sc, pend, run) => AtGoesOn(s, s, t, FlLink(sc, pend, run, AnchorOf(s, run.head.sb)));
      case FlLink(sc, pend, run, seen) =>
        AtGoesOn(s, s.(link := s.link[run.tail := Loc(run.head.sb, seen.avail)]), t, FlCas(sc, pend, run, seen));
      case FlCas(sc, pend, run, seen) =>
        var d := run.head.sb;
        var a := FlushedAnchor(MaxOf(c, s.cls, d), seen, run);
        AtGoesOn(s, s, t, FlLink(sc, pend, run, AnchorOf(s, d)));
        AtGoesOn(s, s.(anchor := s.anchor[d := a]), t,
            if seen.state.Full? then if a.state.Empty? then Erase(d, ThenFlush(sc, pend)) else PpLoad(sc, pend, d)
            else Flush(sc, pend));
    }
  }

  lemma PushGoesOn(s: State, t: nat, fail: bool)
    requires t in s.pc
    requires var p := s.pc[t]; p.PpLoad? || p.PpLink? || p.PpCas?
    ensures GoesOn(s, ActPush(s, t, fail), t)
  {
    hide GoesOn;
    match s.pc[t] {
      case PpLoad(sc, pend, d) =>
        AtGoesOn(s, s, t, PpLink(sc, pend, d, Get(s.cls, d, 0), PartialHead(s, Get(s.cls, d, 0))));
      case PpLink(sc, pend, d, heap, was) =>
        AtGoesOn(s, s.(nextPartial := s.nextPartial[d := was.ptr]), t, PpCas(sc, pend, d, heap, was));
      case PpCas(sc, pend, d, heap, was) =>
        AtGoesOn(s, s.(partialHead := s.partialHead[heap := Head(Some(d), was.cnt + 1)]), t, Flush(sc, pend));
        AtGoesOn(s, s, t, PpLink(sc, pend, d, heap, PartialHead(s, heap)));
    }
  }

  lemma RetireFollows(d: nat, first: nat, last: nat, k: Cont, was: Head, now: Head)
    ensures Follows(Erase(d, k), ChLoad(d, d, k)) && Follows(ChLoad(first, last, k), ChLink(first, last, k, now))
    ensures Follows(ChLink(first, last, k, was), ChCas(first, last, k, was))
    ensures Follows(ChCas(first, last, k, was), Resume(k))
      && Follows(ChCas(first, last, k, was), ChLink(first, last, k, now))
  {
  }

  lemma RetireGoesOn(s: State, t: nat, fail: bool)
    requires t in s.pc
    requires var p := s.pc[t]; p.Erase? || p.ChLoad? || p.ChLink? || p.ChCas?
    ensures GoesOn(s, ActRetire(s, t, fail), t)
  {
    hide GoesOn, Follows, Resume;
    match s.pc[t] {
      case Erase(d, k) =>
        RetireFollows(d, d, d, k, s.availHead, s.availHead);
        AtGoesOn(s, s.(nextFree := s.nextFree[d := None], nextPartial := s.nextPartial[d := None], cls := s.cls - {d},
            anchor := s.anchor - {d}), t, ChLoad(d, d, k));
      case ChLoad(first, last, k) =>
        RetireFollows(0, first, last, k, s.availHead, s.availHead);
        AtGoesOn(s, s, t, ChLink(first, last, k, s.availHead));
      case ChLink(first, last, k, was) =>
        RetireFollows(0, first, last, k, was, s.availHead);
        AtGoesOn(s, s.(nextFree := s.nextFree[last := was.ptr]), t, ChCas(first, last, k, was));
      case ChCas(first, last, k, was) =>
        RetireFollows(0, first, last, k, was, s.availHead);
        AtGoesOn(s, s.(availHead := Head(Some(first), was.cnt + 1)), t, Resume(k));
        AtGoesOn(s, s, t, ChLink(first, last, k, s.availHead));
    }
  }

  /** The last step of a malloc, and the last of a flush. */
  predicate Ends(s: State, t: nat) {
    t in s.pc && (s.pc[t].TakeBlock? || (s.pc[t].Flush? && CacheOf(s, t, s.pc[t].sc).num == 0))
  }

  lemma ActGoesOn(c: Config, s: State, t: nat, fail: bool, junk: Loc)
    requires t in s.pc && !s.pc[t].Idle? && !Ends(s, t)
    ensures GoesOn(s, Act(c, s, t, fail, junk), t)
  {
    hide GoesOn, ActPop, ActReserve, ActSb, ActGrow, ActCache, ActCut, ActFlush, ActPush, ActRetire;
    var p := s.pc[t];
    if p.Fill? || p.PopNext? || p.PopCas? { PopGoesOn(s, t, fail); }
    else if p.ResLoad? || p.ResCas? { ReserveGoesOn(c, s, t, fail); }
    else if p.SbLoad? || p.SbNext? || p.SbCas? { SbGoesOn(s, t); }
    else if p.GrowLoad? || p.GrowCheck? || p.GrowCas? { GrowGoesOn(c, s, t); }
    else if p.InitSb? { InitGoesOn(c, s, t, junk); }
    else if p.Flush? { CutGoesOn(s, t); }
    else if p.FlLoad? || p.FlLink? || p.FlCas? { FlushGoesOn(c, s, t, fail); }
    else if p.PpLoad? || p.PpLink? || p.PpCas? { PushGoesOn(s, t, fail); }
    else { RetireGoesOn(s, t, fail); }
  }

  lemma CachedOnly(s: State, s1: State, u: nat, sc: nat, q: Cache, p: PC)
    requires u in s.pc && s1.pc == s.pc && s1.cache == s.cache
    ensures
      var s' := At(WithCache(s1, u, sc, q), u, p);
      OnlyMoves(s, s', u) && s'.pc[u] == p && s'.user == s1.user && CacheOf(s', u, sc) == q
  {
  }

  lemma AtOnly(s: State, s1: State, u: nat, p: PC)
    requires u in s.pc && s1.pc == s.pc && s1.cache == s.cache
    ensures var s' := At(s1, u, p); OnlyMoves(s, s', u) && s'.pc[u] == p && s'.user == s1.user && s'.cache == s.cache
  {
  }

  lemma TakeEnds(c: Config, s: State, t: nat, junk: Loc)
    requires t in s.pc && s.pc[t].TakeBlock?
    ensures
      var s' := ActCache(c, s, t, junk);
      OnlyMoves(s, s', t) && (CacheOf(s, t, s.pc[t].sc).num > 0 ==> s'.pc[t].Idle?)
  {
    hide OnlyMoves;
    var sc := s.pc[t].sc;
    var q := CacheOf(s, t, sc);
    if q.num > 0 {
      CachedOnly(s, s.(user := s.user + {q.head}), t, sc, Cache(Word(s.link, q.head), q.num - 1), Idle);
    } else {
      assert OnlyMoves(s, s, t) by { StaysOn(s, t); }
    }
  }

  lemma FlushEnds(s: State, t: nat)
    requires t in s.pc && s.pc[t].Flush? && CacheOf(s, t, s.pc[t].sc).num == 0
    ensures
      var s' := ActCut(s, t);
      OnlyMoves(s, s', t) && s'.pc[t].Idle? && s'.user == s.user && Flushed(s', t, s.pc[t].sc, s.pc[t].pend)
  {
    hide OnlyMoves;
    var sc, pend := s.pc[t].sc, s.pc[t].pend;
    if pend.Some? {
      CachedOnly(s, s.(link := s.link[pend.value := CacheOf(s, t, sc).head]), t, sc, Cache(pend.value, 1), Idle);
    } else {
      AtOnly(s, s, t, Idle);
    }
  }

  /** A call of thread e.t starts. */
  lemma StartMoves(c: Config, s: State, e: Step)
    requires Enabled(c, s, e) && (e.Malloc? || e.Free? || e.FlushCache?)
    ensures OnlyMoves(s, Apply(c, s, e), e.t)
  {
    hide OnlyMoves;
    var t := e.t;
    match e {
      case Malloc(_, sc) => AtOnly(s, s, t, if CacheOf(s, t, sc).num == 0 then Fill(sc) else TakeBlock(sc));
      case FlushCache(_, sc) => AtOnly(s, s, t, Flush(sc, None));
      case Free(_, b) =>
        var sc := Get(s.cls, b.sb, 0);
        var s1, q := s.(user := s.user - {b}), CacheOf(s, t, sc);
        AtOnly(s, s1, t, Flush(sc, Some(b)));
        var s2 := s1.(link := s1.link[b := q.head]);
        CachedOnly(s, s2, t, sc, Cache(b, q.num + 1), Idle);
        assert At(WithCache(s2, t, sc, Cache(b, q.num + 1)), t, Idle) == PushBlock(s1, t, sc, b);
    }
  }

  lemma OtherStays(s: State, s': State, u: nat, t: nat)
    requires OnlyMoves(s, s', u) && t != u && t in s.pc
    ensures t in s'.pc && s'.pc[t] == s.pc[t] && forall sc: nat :: CacheOf(s', t, sc) == CacheOf(s, t, sc)
  {
    hide CacheOf;
  }

  lemma ActMoves(c: Config, s: State, t: nat, fail: bool, junk: Loc)
    requires t in s.pc && !s.pc[t].Idle?
    ensures OnlyMoves(s, Act(c, s, t, fail, junk), t)
  {
    hide ActPop, ActReserve, ActSb, ActGrow, ActCache, ActCut, ActFlush, ActPush, ActRetire, Follows, OnlyMoves;
    if !Ends(s, t) { ActGoesOn(c, s, t, fail, junk); }
    else if s.pc[t].TakeBlock? { TakeEnds(c, s, t, junk); }
    else { FlushEnds(s, t); }
  }

  /** A step of another thread, or of the user, leaves thread t where it is. */
  lemma OthersStep(c: Config, s: State, e: Step, t: nat)
    requires Enabled(c, s, e) && t in s.pc && !Runs(e, t) && !Starts(e, t)
    ensures
      var s' := Apply(c, s, e);
      t in s'.pc && s'.pc[t] == s.pc[t] && forall sc: nat :: CacheOf(s', t, sc) == CacheOf(s, t, sc)
  {
    hide Act, OnlyMoves;
    if e.Run? {
      ActMoves(c, s, e.t, e.fail, e.junk);
      OtherStays(s, Apply(c, s, e), e.t, t);
    } else if !e.UserWrite? {
      StartMoves(c, s, e);
      OtherStays(s, Apply(c, s, e), e.t, t);
    }
  }

  lemma MallocStep(c: Config, s: State, e: Step, t: nat, sc: nat)
    requires Enabled(c, s, e) && Runs(e, t) && Mallocs(s.pc[t], sc)
      && (s.pc[t].TakeBlock? ==> CacheOf(s, t, sc).num > 0)
    ensures
      var s' := Apply(c, s, e);
      t in s'.pc && if s.pc[t].TakeBlock? then s'.pc[t].Idle? else Mallocs(s'.pc[t], sc) && s'.user == s.user
  {
    hide ActPop, ActReserve, ActSb, ActGrow, ActCache, ActCut, ActFlush, ActPush, ActRetire;
    if s.pc[t].TakeBlock? { TakeEnds(c, s, t, e.junk); } else { ActGoesOn(c, s, t, e.fail, e.junk); }
  }

  lemma FlushStep(c: Config, s: State, e: Step, t: nat, sc: nat, pend: Option<Loc>)
    requires Enabled(c, s, e) && Runs(e, t) && Flushes(s.pc[t], sc, pend)
    ensures
      var s' := Apply(c, s, e);
      t in s'.pc && s'.user == s.user && (Flushes(s'.pc[t], sc, pend) || (s'.pc[t].Idle? && Flushed(s', t, sc, pend)))
  {
    hide ActPop, ActReserve, ActSb, ActGrow, ActCache, ActCut, ActFlush, ActPush, ActRetire;
    if Ends(s, t) { FlushEnds(s, t); } else { ActGoesOn(c, s, t, e.fail, e.junk); }
  }

  // ---- malloc ----

  /** Step l of thread t hands block b of class sc to the user, who does not have it yet. */
  ghost predicate Hands(c: Config, states: seq<State>, steps: seq<Step>, t: nat, sc: nat, l: nat, b: Loc) {
    && l < |steps| && |states| == |steps| + 1 && Runs(steps[l], t)
    && b !in states[l].user && states[l + 1].user == states[l].user + {b}
    && b.sb in states[l].cls && states[l].cls[b.sb] == sc && b.idx < Get(c.maxcount, sc, 0)
  }

  /** The block a malloc takes. */
  lemma MallocTakes(c: Config, states: seq<State>, steps: seq<Step>, t: nat, sc: nat, l: nat) returns (b: Loc)
    requires IsRun(c, states, steps) && l < |steps| && Runs(steps[l], t) && t in states[l].pc
      && states[l].pc[t] == TakeBlock(sc)
    ensures Hands(c, states, steps, t, sc, l, b)
  {
    assert Enabled(c, states[l], steps[l]);
    hide Enabled, Apply;
    MallocIsFresh(c, states, steps, l);
    b := CacheOf(states[l], t, sc).head;
  }

  lemma CacheFilled(c: Config, states: seq<State>, steps: seq<Step>, t: nat, i: nat)
    requires IsRun(c, states, steps) && i < |states| && t in states[i].pc && states[i].pc[t].TakeBlock?
    ensures CacheOf(states[i], t, states[i].pc[t].sc).num > 0
  {
    var g := RunInv(c, states, steps, i);
    hide Inv;
    TakeBlockParts(c, states[i], g, t);
  }

  /** Where a malloc of class sc stands: it has handed out one block of that class and is done, or none and is not. */
  ghost predicate MallocAt(c: Config, states: seq<State>, steps: seq<Step>, t: nat, sc: nat, j: nat, i: nat) {
    && |states| == |steps| + 1 && j < i <= |steps| && t in states[i].pc
    && if states[i].pc[t].Idle? then
         exists l: nat, b: Loc ::
           && j < l < i && Hands(c, states, steps, t, sc, l, b)
           && Idles(states, steps, t, j + 1, l) && Idles(states, steps, t, l + 1, i)
       else Mallocs(states[i].pc[t], sc) && Idles(states, steps, t, j + 1, i)
  }

  /** malloc of class sc hands the user exactly one block, of that class. */
  lemma {:induction false} MallocCall(c: Config, states: seq<State>, steps: seq<Step>, t: nat, sc: nat, j: nat, i: nat)
    requires IsRun(c, states, steps) && SameCall(steps, t, j, i) && steps[j] == Malloc(t, sc)
    ensures states[j + 1].user == states[j].user && MallocAt(c, states, steps, t, sc, j, i)
    decreases i
  {
    hide Apply, Enabled;
    MallocStarts(c, states[j], t, sc);
    if i > j + 1 {
      MallocCall(c, states, steps, t, sc, j, i - 1);
      MallocGoes(c, states, steps, t, sc, j, i - 1);
    }
  }

  lemma MallocStarts(c: Config, s: State, t: nat, sc: nat)
    requires Enabled(c, s, Malloc(t, sc))
    ensures var s' := Apply(c, s, Malloc(t, sc)); t in s'.pc && Mallocs(s'.pc[t], sc) && s'.user == s.user
  {
  }

  lemma MallocGoes(c: Config, states: seq<State>, steps: seq<Step>, t: nat, sc: nat, j: nat, i: nat)
    requires IsRun(c, states, steps) && SameCall(steps, t, j, i + 1) && MallocAt(c, states, steps, t, sc, j, i)
    ensures MallocAt(c, states, steps, t, sc, j, i + 1)
  {
    hide Apply, Enabled, Hands, Mallocs, Idles;
    var s, e := states[i], steps[i];
    if Runs(e, t) {
      assert !s.pc[t].Idle? by { RunsBusy(c, s, e, t); }
      if s.pc[t].TakeBlock? { CacheFilled(c, states, steps, t, i); }
      assert s.pc[t].TakeBlock? ==> s.pc[t].sc == sc by { TakesClass(s.pc[t], sc); }
      MallocStep(c, s, e, t, sc);
      if s.pc[t].TakeBlock? {
        var b := MallocTakes(c, states, steps, t, sc, i);
        NoIdles(states, steps, t, i + 1);
      } else {
        NotIdle(states[i + 1].pc[t], sc);
        IdlesOn(states, steps, t, j + 1, i);
      }
    } else {
      OthersStep(c, s, e, t);
      if s.pc[t].Idle? {
        var l: nat, b: Loc :| j < l < i && Hands(c, states, steps, t, sc, l, b)
          && Idles(states, steps, t, j + 1, l) && Idles(states, steps, t, l + 1, i);
        IdlesOn(states, steps, t, l + 1, i);
      } else {
        IdlesOn(states, steps, t, j + 1, i);
      }
    }
  }

  lemma RunsBusy(c: Config, s: State, e: Step, t: nat)
    requires Enabled(c, s, e) && Runs(e, t)
    ensures t in s.pc && !s.pc[t].Idle?
  {
  }

  lemma TakesClass(p: PC, sc: nat)
    requires Mallocs(p, sc)
    ensures p.TakeBlock? ==> p == TakeBlock(sc)
  {
  }

  lemma NotIdle(p: PC, sc: nat)
    requires Mallocs(p, sc)
    ensures !p.Idle?
  {
  }

  lemma NoIdles(states: seq<State>, steps: seq<Step>, t: nat, a: nat)
    requires |states| == |steps| + 1 && a <= |steps|
    ensures Idles(states, steps, t, a, a)
  {
  }

  lemma IdlesOn(states: seq<State>, steps: seq<Step>, t: nat, a: nat, b: nat)
    requires Idles(states, steps, t, a, b) && b < |steps|
    requires Runs(steps[b], t) ==> states[b + 1].user == states[b].user
    ensures Idles(states, steps, t, a, b + 1)
  {
  }

  // ---- free and flush_cache ----

  ghost predicate FlushAt(states: seq<State>, steps: seq<Step>, t: nat, sc: nat, pend: Option<Loc>, j: nat, i: nat) {
    && |states| == |steps| + 1 && j < i <= |steps| && t in states[i].pc && Idles(states, steps, t, j + 1, i)
    && if states[i].pc[t].Idle? then Flushed(states[i], t, sc, pend) else Flushes(states[i].pc[t], sc, pend)
  }

  lemma FlushGoes(c: Config, states: seq<State>, steps: seq<Step>, t: nat, sc: nat, pend: Option<Loc>, j: nat, i: nat)
    requires IsRun(c, states, steps) && SameCall(steps, t, j, i + 1) && FlushAt(states, steps, t, sc, pend, j, i)
    ensures FlushAt(states, steps, t, sc, pend, j, i + 1)
  {
    hide Apply, Enabled, Flushes, Idles;
    var s, e := states[i], steps[i];
    if Runs(e, t) {
      RunsBusy(c, s, e, t);
      FlushStep(c, s, e, t, sc, pend);
      FlushNotIdle(states[i + 1].pc[t], sc, pend);
    } else {
      OthersStep(c, s, e, t);
    }
    IdlesOn(states, steps, t, j + 1, i);
  }

  lemma FlushNotIdle(p: PC, sc: nat, pend: Option<Loc>)
    ensures Flushes(p, sc, pend) ==> !p.Idle?
  {
  }

  lemma {:induction false} FlushLasts(c: Config, states: seq<State>, steps: seq<Step>, t: nat, sc: nat,
        pend: Option<Loc>, j: nat, i: nat)
    requires IsRun(c, states, steps) && SameCall(steps, t, j, i) && FlushAt(states, steps, t, sc, pend, j, j + 1)
    ensures FlushAt(states, steps, t, sc, pend, j, i)
    decreases i
  {
    hide Apply, Enabled, FlushAt;
    if i > j + 1 {
      FlushLasts(c, states, steps, t, sc, pend, j, i - 1);
      FlushGoes(c, states, steps, t, sc, pend, j, i - 1);
    }
  }

  /**
   * free takes exactly that block from the user, at once, and when the call is done the block is on top
   * of the thread's cache for its class.
   */
  lemma FreeCall(c: Config, states: seq<State>, steps: seq<Step>, t: nat, b: Loc, j: nat, i: nat)
    requires IsRun(c, states, steps) && SameCall(steps, t, j, i) && steps[j] == Free(t, b)
    ensures b in states[j].user && states[j + 1].user == states[j].user - {b} && b.sb in states[j].cls
    ensures Idles(states, steps, t, j + 1, i) && t in states[i].pc
    ensures
      var sc, q := states[j].cls[b.sb], CacheOf(states[i], t, states[j].cls[b.sb]);
      if states[i].pc[t].Idle? then q.num > 0 && q.head == b else Flushes(states[i].pc[t], sc, Some(b))
  {
    hide Apply, Enabled;
    FreeStarts(c, states, steps, t, b, j);
    FlushLasts(c, states, steps, t, states[j].cls[b.sb], Some(b), j, i);
  }

  lemma FreeStarts(c: Config, states: seq<State>, steps: seq<Step>, t: nat, b: Loc, j: nat)
    requires IsRun(c, states, steps) && j < |steps| && steps[j] == Free(t, b)
    ensures b in states[j].user && states[j + 1].user == states[j].user - {b} && b.sb in states[j].cls
    ensures FlushAt(states, steps, t, states[j].cls[b.sb], Some(b), j, j + 1)
  {
    var g := RunInv(c, states, steps, j);
    hide Inv;
    var s := states[j];
    FreeFlushParts(c, s, g, t, b);
    FreeBegins(c, s, t, b);
    hide Apply, Enabled, Flushes;
    NoIdles(states, steps, t, j + 1);
  }

  lemma FreeBegins(c: Config, s: State, t: nat, b: Loc)
    requires Enabled(c, s, Free(t, b)) && b.sb in s.cls
    ensures
      var s', sc := Apply(c, s, Free(t, b)), s.cls[b.sb];
      && s'.user == s.user - {b} && t in s'.pc
      && if s'.pc[t].Idle? then Flushed(s', t, sc, Some(b)) else Flushes(s'.pc[t], sc, Some(b))
  {
    hide OnlyMoves;
    var sc, s1 := s.cls[b.sb], s.(user := s.user - {b});
    var q := CacheOf(s, t, sc);
    AtOnly(s, s1, t, Flush(sc, Some(b)));
    var s2 := s1.(link := s1.link[b := q.head]);
    CachedOnly(s, s2, t, sc, Cache(b, q.num + 1), Idle);
    assert At(WithCache(s2, t, sc, Cache(b, q.num + 1)), t, Idle) == PushBlock(s1, t, sc, b);
  }

  /** flush_cache leaves the thread's cache for the class empty, and the user's blocks alone. */
  lemma FlushCall(c: Config, states: seq<State>, steps: seq<Step>, t: nat, sc: nat, j: nat, i: nat)
    requires IsRun(c, states, steps) && SameCall(steps, t, j, i) && steps[j] == FlushCache(t, sc)
    ensures states[j + 1].user == states[j].user && Idles(states, steps, t, j + 1, i) && t in states[i].pc
    ensures if states[i].pc[t].Idle? then CacheOf(states[i], t, sc).num == 0 else Flushes(states[i].pc[t], sc, None)
  {
    assert states[j + 1] == Apply(c, states[j], steps[j]);
    hide Apply, Enabled;
    FlushLasts(c, states, steps, t, sc, None, j, i);
  }
}
