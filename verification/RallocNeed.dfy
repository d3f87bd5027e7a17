/**
 * What the allocator does not do without need: a superblock is formatted only by a call that met an
 * empty partial list, the region grows only for a call that met an empty free list after that, and
 * no thread cache outgrows a superblock.
 */
module RallocNeed {
  import opened Common
  import opened CountedStack
  import opened RallocMachine
  import opened RallocInvariant
  import opened RallocSteps
  import opened RallocTheorems
  import opened RallocCalls

  predicate ThenInits(p: PC) {
    match p
    case Erase(_, k) => k.ThenInit?
    case ChLoad(_, _, k) => k.ThenInit?
    case ChLink(_, _, k, _) => k.ThenInit?
    case ChCas(_, _, k, _) => k.ThenInit?
    case _ => false
  }

  /** Getting a new superblock. */
  predicate Renews(p: PC) {
    || p.SbLoad? || p.SbNext? || p.SbCas? || p.GrowLoad? || p.GrowCheck? || p.GrowCas? || p.InitSb? || ThenInits(p)
  }

  predicate NoPartial(s: State, sc: nat) { PartialHead(s, sc).ptr.None? }

  predicate NoneFree(s: State) { s.availHead.ptr.None? }

  /** A step of a malloc of class sc turns to a new superblock, or to a bigger region, for want of an old one. */
  predicate Needs(s: State, p: PC, p': PC, sc: nat) {
    && (Renews(p') ==> Renews(p) || NoPartial(s, sc))
    && (p'.GrowCheck? ==> p' == p || p'.base == s.top)
    && (p'.GrowCas? ==> p' == p || (p.GrowCheck? && p'.base == p.base && NoneFree(s)))
  }

  lemma AtNeeds(s: State, s1: State, t: nat, p: PC, sc: nat)
    requires t in s.pc && Needs(s, s.pc[t], p, sc)
    ensures var s' := At(s1, t, p); t in s'.pc && Needs(s, s.pc[t], s'.pc[t], sc)
  {
    hide Needs;
  }

  lemma ClassOf(p: PC, sc: nat)
    requires Mallocs(p, sc)
    ensures InMalloc(p) ==> p.sc == sc
  {
  }

  lemma SawNeeds(s: State, p: PC, sc: nat)
    ensures Needs(s, p, SawPartial(sc, PartialHead(s, sc)), sc)
  {
  }

  lemma OldNeeds(s: State, p: PC, p': PC, sc: nat)
    requires p'.PopCas? || p'.ResLoad?
    ensures Needs(s, p, p', sc)
  {
  }

  lemma PopNeeds(s: State, t: nat, fail: bool, sc: nat)
    requires t in s.pc && Mallocs(s.pc[t], sc)
    requires var p := s.pc[t]; p.Fill? || p.PopNext? || p.PopCas?
    ensures var s' := ActPop(s, t, fail); t in s'.pc && Needs(s, s.pc[t], s'.pc[t], sc)
  {
    hide Mallocs, PartialHead, SawPartial, Needs, At;
    ClassOf(s.pc[t], sc);
    SawNeeds(s, s.pc[t], sc);
    AtNeeds(s, s, t, SawPartial(sc, PartialHead(s, sc)), sc);
    match s.pc[t] {
      case Fill(k) =>
      case PopNext(k, was) =>
        if was.ptr.Some? {
          OldNeeds(s, s.pc[t], PopCas(sc, was, Get(s.nextPartial, was.ptr.value, None)), sc);
          AtNeeds(s, s, t, PopCas(sc, was, Get(s.nextPartial, was.ptr.value, None)), sc);
        } else {
          Needless(s, s.pc[t], sc);
        }
      case PopCas(k, was, nx) =>
        if was.ptr.None? {
          Needless(s, s.pc[t], sc);
        } else if !fail && PartialHead(s, sc) == was {
          OldNeeds(s, s.pc[t], ResLoad(sc, was.ptr.value), sc);
          AtNeeds(s, s.(partialHead := s.partialHead[sc := Head(nx, was.cnt)]), t, ResLoad(sc, was.ptr.value), sc);
        }
    }
  }

  lemma ReserveNeeds(c: Config, s: State, t: nat, fail: bool, sc: nat)
    requires t in s.pc && Mallocs(s.pc[t], sc)
    requires var p := s.pc[t]; p.ResLoad? || (p.ResCas? && (p.seen.state.Empty? || p.seen.count > 0))
    ensures var s' := ActReserve(c, s, t, fail); t in s'.pc && Needs(s, s.pc[t], s'.pc[t], sc)
  {
    hide Mallocs, WithCache, MaxOf;
    ClassOf(s.pc[t], sc);
    match s.pc[t] {
      case ResLoad(k, d) => AtNeeds(s, s, t, ResCas(sc, d, AnchorOf(s, d)), sc);
      case ResCas(k, d, seen) =>
        AtNeeds(s, s, t, Erase(d, ThenFill(sc)), sc);
        AtNeeds(s, WithCache(s.(anchor := s.anchor[d := Anchor(MaxOf(c, s.cls, d), 0, Full)]),
            t, sc, Cache(Loc(d, seen.avail), seen.count)), t, TakeBlock(sc), sc);
        AtNeeds(s, s, t, ResCas(sc, d, AnchorOf(s, d)), sc);
    }
  }

  lemma SbNeeds(s: State, t: nat, sc: nat)
    requires t in s.pc && Mallocs(s.pc[t], sc)
    requires var p := s.pc[t]; p.SbLoad? || p.SbNext? || p.SbCas?
    ensures var s' := ActSb(s, t); t in s'.pc && Needs(s, s.pc[t], s'.pc[t], sc)
  {
    hide Mallocs, PartialHead;
    ClassOf(s.pc[t], sc);
    match s.pc[t] {
      case SbLoad(k) => AtNeeds(s, s, t, SawAvail(sc, s.availHead), sc);
      case SbNext(k, was) =>
        if was.ptr.Some? { AtNeeds(s, s, t, SbCas(sc, was, Get(s.nextFree, was.ptr.value, None)), sc); }
      case SbCas(k, was, nx) =>
        if was.ptr.Some? {
          if s.availHead == was {
            AtNeeds(s, s.(availHead := Head(nx, was.cnt)), t, InitSb(sc, was.ptr.value), sc);
          } else {
            AtNeeds(s, s, t, SawAvail(sc, s.availHead), sc);
          }
        }
    }
  }

  lemma GrowNeeds(c: Config, s: State, t: nat, sc: nat)
    requires t in s.pc && Mallocs(s.pc[t], sc)
    requires var p := s.pc[t]; p.GrowLoad? || p.GrowCheck? || p.GrowCas?
    ensures var s' := ActGrow(c, s, t); t in s'.pc && Needs(s, s.pc[t], s'.pc[t], sc)
  {
    hide Mallocs, FreshChain, PartialHead;
    ClassOf(s.pc[t], sc);
    match s.pc[t] {
      case GrowLoad(k) => AtNeeds(s, s, t, GrowCheck(sc, s.top), sc);
      case GrowCheck(k, base) =>
        AtNeeds(s, s, t, if s.availHead.ptr.Some? then GrowLoad(sc) else GrowCas(sc, base), sc);
      case GrowCas(k, base) =>
        if s.top == base && c.expand >= 2 {
          AtNeeds(s, s.(top := base + c.expand, nextFree := s.nextFree + FreshChain(base + 1, base + c.expand - 1)), t,
              ChLoad(base + 1, base + c.expand - 1, ThenInit(sc, base)), sc);
        } else {
          AtNeeds(s, s, t, GrowLoad(sc), sc);
        }
    }
  }

  lemma CacheNeeds(c: Config, s: State, t: nat, junk: Loc, sc: nat)
    requires t in s.pc && Mallocs(s.pc[t], sc)
    requires var p := s.pc[t]; p.InitSb? || p.TakeBlock?
    ensures var s' := ActCache(c, s, t, junk); t in s'.pc && Needs(s, s.pc[t], s'.pc[t], sc)
  {
    hide FreshLinks;
  }

  lemma RetireNeeds(s: State, t: nat, fail: bool, sc: nat)
    requires t in s.pc && Mallocs(s.pc[t], sc)
    requires var p := s.pc[t]; p.Erase? || p.ChLoad? || p.ChLink? || p.ChCas?
    ensures var s' := ActRetire(s, t, fail); t in s'.pc && Needs(s, s.pc[t], s'.pc[t], sc)
  {
    match s.pc[t] {
      case Erase(d, k) =>
        AtNeeds(s, s.(nextFree := s.nextFree[d := None], nextPartial := s.nextPartial[d := None], cls := s.cls - {d},
            anchor := s.anchor - {d}), t, ChLoad(d, d, k), sc);
      case ChLoad(first, last, k) => AtNeeds(s, s, t, ChLink(first, last, k, s.availHead), sc);
      case ChLink(first, last, k, was) =>
        AtNeeds(s, s.(nextFree := s.nextFree[last := was.ptr]), t, ChCas(first, last, k, was), sc);
      case ChCas(first, last, k, was) =>
        if !fail && s.availHead == was {
          AtNeeds(s, s.(availHead := Head(Some(first), was.cnt + 1)), t, Resume(k), sc);
        } else {
          AtNeeds(s, s, t, ChLink(first, last, k, s.availHead), sc);
        }
    }
  }

  lemma ActNeeds(c: Config, s: State, t: nat, fail: bool, junk: Loc, sc: nat)
    requires t in s.pc && Mallocs(s.pc[t], sc)
    requires var p := s.pc[t]; p.ResCas? ==> p.seen.state.Empty? || p.seen.count > 0
    ensures var s' := Act(c, s, t, fail, junk); t in s'.pc && Needs(s, s.pc[t], s'.pc[t], sc)
  {
    hide Needs, ActPop, ActReserve, ActSb, ActGrow, ActCache, ActCut, ActFlush, ActPush, ActRetire;
    var p := s.pc[t];
    if p.Fill? || p.PopNext? || p.PopCas? { PopNeeds(s, t, fail, sc); }
    else if p.ResLoad? || p.ResCas? { ReserveNeeds(c, s, t, fail, sc); }
    else if p.SbLoad? || p.SbNext? || p.SbCas? { SbNeeds(s, t, sc); }
    else if p.GrowLoad? || p.GrowCheck? || p.GrowCas? { GrowNeeds(c, s, t, sc); }
    else if p.InitSb? || p.TakeBlock? { CacheNeeds(c, s, t, junk, sc); }
    else { RetireNeeds(s, t, fail, sc); }
  }

  /** The anchor of a popped superblock is EMPTY or has a block to give. */
  lemma SeenHasBlocks(c: Config, states: seq<State>, steps: seq<Step>, t: nat, i: nat)
    requires IsRun(c, states, steps) && i < |states| && t in states[i].pc && states[i].pc[t].ResCas?
    ensures var p := states[i].pc[t]; p.seen.state.Empty? || p.seen.count > 0
  {
    var g := RunInv(c, states, steps, i);
    hide Inv;
    ThreadFacts(c, states[i], g, t);
  }

  // ---- over a run ----

  /** Between states j and i, both left out, the partial list of class sc was empty. */
  ghost predicate MetNoPartial(states: seq<State>, sc: nat, j: nat, i: nat) {
    exists l: nat :: j < l < i <= |states| && NoPartial(states[l], sc)
  }

  /** And the free list was, later, with the region not shorter than `base`. */
  ghost predicate MetNoneFree(states: seq<State>, sc: nat, j: nat, i: nat, base: nat) {
    exists l: nat, m: nat ::
      && j < l < m < i <= |states| && NoPartial(states[l], sc)
      && NoneFree(states[m]) && base <= states[m].top
  }

  ghost predicate MetAt(states: seq<State>, t: nat, sc: nat, j: nat, i: nat) {
    && j < i < |states| && t in states[i].pc
    && (Renews(states[i].pc[t]) ==> MetNoPartial(states, sc, j, i))
    && (states[i].pc[t].GrowCheck? ==> states[i].pc[t].base <= states[i].top)
    && (states[i].pc[t].GrowCas? ==> MetNoneFree(states, sc, j, i, states[i].pc[t].base))
  }

  lemma MetGrows(states: seq<State>, t: nat, sc: nat, j: nat, i: nat)
    requires i + 1 < |states| && MetAt(states, t, sc, j, i) && t in states[i + 1].pc
    requires Needs(states[i], states[i].pc[t], states[i + 1].pc[t], sc) && states[i].top <= states[i + 1].top
    ensures MetAt(states, t, sc, j, i + 1)
  {
    hide NoPartial, NoneFree;
    if Renews(states[i].pc[t]) {
      var l: nat :| j < l < i <= |states| && NoPartial(states[l], sc);
      if NoneFree(states[i]) && states[i].pc[t].GrowCheck? {
        assert MetNoneFree(states, sc, j, i + 1, states[i].pc[t].base);
      }
    }
  }

  lemma {:induction false} CallMet(c: Config, states: seq<State>, steps: seq<Step>, t: nat, sc: nat, j: nat, i: nat)
    requires IsRun(c, states, steps) && SameCall(steps, t, j, i) && steps[j] == Malloc(t, sc)
    ensures MetAt(states, t, sc, j, i)
    decreases i
  {
    hide Apply, Enabled, MallocAt, Mallocs, Needs;
    if i == j + 1 {
      CallBegins(c, states[j], t, sc);
    } else {
      hide MetAt;
      CallMet(c, states, steps, t, sc, j, i - 1);
      MallocCall(c, states, steps, t, sc, j, i - 1);
      CallStep(c, states, steps, t, sc, j, i - 1);
      TopRises(c, states[i - 1], steps[i - 1]);
      MetGrows(states, t, sc, j, i - 1);
    }
  }

  lemma CallBegins(c: Config, s: State, t: nat, sc: nat)
    requires Enabled(c, s, Malloc(t, sc))
    ensures var s' := Apply(c, s, Malloc(t, sc)); t in s'.pc && !Renews(s'.pc[t])
  {
  }

  lemma CallStep(c: Config, states: seq<State>, steps: seq<Step>, t: nat, sc: nat, j: nat, i: nat)
    requires IsRun(c, states, steps) && SameCall(steps, t, j, i + 1) && MallocAt(c, states, steps, t, sc, j, i)
    ensures t in states[i].pc && t in states[i + 1].pc && Needs(states[i], states[i].pc[t], states[i + 1].pc[t], sc)
  {
    assert Enabled(c, states[i], steps[i]) && states[i + 1] == Apply(c, states[i], steps[i]);
    hide Act, Mallocs, Needs, Hands, Idles;
    var s, e := states[i], steps[i];
    if Runs(e, t) {
      if s.pc[t].ResCas? { SeenHasBlocks(c, states, steps, t, i); }
      ActNeeds(c, s, t, e.fail, e.junk, sc);
    } else {
      OthersStep(c, s, e, t);
      assert Needs(s, s.pc[t], s.pc[t], sc) by { Needless(s, s.pc[t], sc); }
    }
  }

  lemma Needless(s: State, p: PC, sc: nat)
    ensures Needs(s, p, p, sc)
  {
  }

  /** Malloc formats a superblock only if it met its partial list empty. */
  lemma FormatMetNoPartial(c: Config, states: seq<State>, steps: seq<Step>, t: nat, sc: nat, j: nat, i: nat, d: nat)
    requires IsRun(c, states, steps) && SameCall(steps, t, j, i + 1) && steps[j] == Malloc(t, sc) && j < i
    requires Runs(steps[i], t) && d !in states[i].cls && d in states[i + 1].cls
    ensures MetNoPartial(states, sc, j, i)
  {
    hide Apply, Enabled, MetNoPartial, MetNoneFree;
    CallMet(c, states, steps, t, sc, j, i);
    OnlyInitFormats(c, states[i], steps[i]);
  }

  /**
   * Malloc extends the region only if it met its partial list empty, and after that the list of free
   * superblocks, with the region as long as it is now: nobody has extended it since.
   */
  lemma GrowMetNoneFree(c: Config, states: seq<State>, steps: seq<Step>, t: nat, sc: nat, j: nat, i: nat)
        returns (l: nat, m: nat)
    requires IsRun(c, states, steps) && SameCall(steps, t, j, i + 1) && steps[j] == Malloc(t, sc) && j < i
    requires Runs(steps[i], t) && states[i + 1].top != states[i].top
    ensures j < l < m < i && NoPartial(states[l], sc) && NoneFree(states[m]) && states[m].top == states[i].top
  {
    assert Enabled(c, states[i], steps[i]) && states[i + 1] == Apply(c, states[i], steps[i]);
    CallMet(c, states, steps, t, sc, j, i);
    hide Act, MetNoPartial, NoPartial, NoneFree;
    GrowsAt(c, states[i], t, steps[i].fail, steps[i].junk);
    l, m :| j < l < m < i <= |states| && NoPartial(states[l], sc)
      && NoneFree(states[m]) && states[i].pc[t].base <= states[m].top;
    TopMonotone(c, states, steps, m, i);
  }

  lemma TopStays(c: Config, s: State, t: nat, fail: bool)
    requires t in s.pc
    ensures ActPop(s, t, fail).top == s.top && ActReserve(c, s, t, fail).top == s.top && ActSb(s, t).top == s.top
  {
    hide At, WithCache, PushBlock, AnchorOf, MaxOf, RunFrom, CacheOf, Word, PartialHead, FreshLinks, FreshChain,
         SawPartial, SawAvail;
  }

  lemma TopStaysToo(c: Config, s: State, t: nat, fail: bool)
    requires t in s.pc
    ensures ActCut(s, t).top == s.top && ActFlush(c, s, t, fail).top == s.top && ActPush(s, t, fail).top == s.top
  {
    hide At, WithCache, PushBlock, AnchorOf, MaxOf, RunFrom, CacheOf, Word, PartialHead, FreshLinks, FreshChain,
         SawPartial, SawAvail;
  }

  lemma TopChanges(c: Config, s: State, t: nat, fail: bool, junk: Loc)
    requires t in s.pc
    ensures ActCache(c, s, t, junk).top == s.top && ActRetire(s, t, fail).top == s.top
    ensures ActGrow(c, s, t).top == s.top || (s.pc[t].GrowCas? && s.pc[t].base == s.top < ActGrow(c, s, t).top)
  {
    hide At, WithCache, PushBlock, AnchorOf, MaxOf, RunFrom, CacheOf, Word, PartialHead, FreshLinks, FreshChain,
         SawPartial, SawAvail;
  }

  lemma GrowsAt(c: Config, s: State, t: nat, fail: bool, junk: Loc)
    requires t in s.pc
    ensures var top' := Act(c, s, t, fail, junk).top;
      top' == s.top || (s.pc[t].GrowCas? && s.pc[t].base == s.top < top')
  {
    hide ActPop, ActReserve, ActSb, ActGrow, ActCache, ActCut, ActFlush, ActPush, ActRetire;
    TopStays(c, s, t, fail);
    TopStaysToo(c, s, t, fail);
    TopChanges(c, s, t, fail, junk);
  }

  lemma TopRises(c: Config, s: State, e: Step)
    requires Enabled(c, s, e)
    ensures s.top <= Apply(c, s, e).top
  {
    hide Act, At, PushBlock, CacheOf;
    if e.Run? { GrowsAt(c, s, e.t, e.fail, e.junk); }
  }

  lemma {:induction false} TopMonotone(c: Config, states: seq<State>, steps: seq<Step>, m: nat, i: nat)
    requires IsRun(c, states, steps) && m <= i < |states|
    ensures states[m].top <= states[i].top
    decreases i
  {
    hide Apply, Enabled;
    if m < i {
      TopMonotone(c, states, steps, m, i - 1);
      TopRises(c, states[i - 1], steps[i - 1]);
    }
  }

  // ---- caches ----

  /** No cache holds more blocks than a superblock of its class. */
  ghost predicate CachesFit(c: Config, s: State) { forall t: nat, sc: nat :: CacheFits(c, s, t, sc) }

  predicate CacheFits(c: Config, s: State, t: nat, sc: nat) { CacheOf(s, t, sc).num <= Get(c.maxcount, sc, 0) }

  lemma CachesStay(c: Config, s: State, t: nat, fail: bool)
    requires t in s.pc
    ensures ActPop(s, t, fail).cache == s.cache && ActSb(s, t).cache == s.cache && ActGrow(c, s, t).cache == s.cache
  {
    hide At, WithCache, PushBlock, AnchorOf, MaxOf, RunFrom, CacheOf, Word, PartialHead, FreshLinks, FreshChain,
         SawPartial, SawAvail;
  }

  lemma CachesStayToo(c: Config, s: State, t: nat, fail: bool)
    requires t in s.pc
    ensures ActFlush(c, s, t, fail).cache == s.cache && ActPush(s, t, fail).cache == s.cache
      && ActRetire(s, t, fail).cache == s.cache
  {
    hide At, WithCache, PushBlock, AnchorOf, MaxOf, RunFrom, CacheOf, Word, PartialHead, FreshLinks, FreshChain,
         SawPartial, SawAvail, FlushedAnchor, Resume;
  }

  lemma CacheSet(c: Config, s: State, s1: State, t: nat, sc: nat, q: Cache)
    requires CachesFit(c, s) && s1.cache == s.cache && q.num <= Get(c.maxcount, sc, 0)
    ensures CachesFit(c, WithCache(s1, t, sc, q))
  {
    forall u: nat, k: nat ensures CacheFits(c, WithCache(s1, t, sc, q), u, k) {
      assert CacheFits(c, s, u, k);
    }
  }

  lemma CacheSame(c: Config, s: State, s1: State)
    requires CachesFit(c, s) && s1.cache == s.cache
    ensures CachesFit(c, s1)
  {
    forall u: nat, k: nat ensures CacheFits(c, s1, u, k) { assert CacheFits(c, s, u, k); }
  }

  lemma ReserveFits(c: Config, s: State, t: nat, fail: bool)
    requires t in s.pc && CachesFit(c, s)
    requires var p := s.pc[t];
      p.ResLoad? || (p.ResCas? && (p.seen.state.Empty? || p.seen.count <= Get(c.maxcount, p.sc, 0)))
    ensures CachesFit(c, ActReserve(c, s, t, fail))
  {
    hide CachesFit, At, WithCache, MaxOf, AnchorOf;
    var s' := ActReserve(c, s, t, fail);
    match s.pc[t] {
      case ResLoad(sc, d) => CacheSame(c, s, s');
      case ResCas(sc, d, seen) =>
        if seen.state.Empty? || fail || AnchorOf(s, d) != seen {
          CacheSame(c, s, s');
        } else {
          var s1 := s.(anchor := s.anchor[d := Anchor(MaxOf(c, s.cls, d), 0, Full)]);
          CacheSet(c, s, s1, t, sc, Cache(Loc(d, seen.avail), seen.count));
          CacheSame(c, WithCache(s1, t, sc, Cache(Loc(d, seen.avail), seen.count)), s');
        }
    }
  }

  lemma TakeFits(c: Config, s: State, t: nat, junk: Loc)
    requires t in s.pc && CachesFit(c, s) && (s.pc[t].InitSb? || s.pc[t].TakeBlock?)
    ensures CachesFit(c, ActCache(c, s, t, junk))
  {
    hide CachesFit, At, WithCache, FreshLinks, Word, CacheOf;
    var s' := ActCache(c, s, t, junk);
    match s.pc[t] {
      case InitSb(sc, d) =>
        var m := Get(c.maxcount, sc, 0);
        var s1 := s.(cls := s.cls[d := sc], link := s.link + FreshLinks(d, m, junk),
            anchor := s.anchor[d := Anchor(m, 0, Full)]);
        CacheSet(c, s, s1, t, sc, Cache(Loc(d, 0), m));
        CacheSame(c, WithCache(s1, t, sc, Cache(Loc(d, 0), m)), s');
      case TakeBlock(sc) =>
        var q := CacheOf(s, t, sc);
        if q.num == 0 {
          CacheSame(c, s, s');
        } else {
          assert CacheFits(c, s, t, sc) by { FitsAt(c, s, t, sc); }
          CacheSet(c, s, s.(user := s.user + {q.head}), t, sc, Cache(Word(s.link, q.head), q.num - 1));
          CacheSame(c, WithCache(s.(user := s.user + {q.head}), t, sc, Cache(Word(s.link, q.head), q.num - 1)), s');
        }
    }
  }

  lemma FitsAt(c: Config, s: State, t: nat, sc: nat)
    requires CachesFit(c, s)
    ensures CacheFits(c, s, t, sc)
  {
  }

  lemma PushFits(c: Config, s: State, s1: State, t: nat, sc: nat, b: Loc)
    requires CachesFit(c, s) && s1.cache == s.cache && CacheOf(s, t, sc).num < Get(c.maxcount, sc, 0)
    ensures CachesFit(c, PushBlock(s1, t, sc, b))
  {
    hide CachesFit, WithCache;
    CacheSet(c, s, s1.(link := s1.link[b := CacheOf(s, t, sc).head]), t, sc, Cache(b, CacheOf(s, t, sc).num + 1));
  }

  lemma CutFits(c: Config, s: State, t: nat)
    requires t in s.pc && CachesFit(c, s) && s.pc[t].Flush?
      && (s.pc[t].pend.Some? ==> Get(c.maxcount, s.pc[t].sc, 0) > 0)
    ensures CachesFit(c, ActCut(s, t))
  {
    hide CachesFit, At, WithCache, PushBlock, RunFrom, Word;
    var s', sc, pend := ActCut(s, t), s.pc[t].sc, s.pc[t].pend;
    var q := CacheOf(s, t, sc);
    if q.num == 0 {
      if pend.Some? {
        PushFits(c, s, s, t, sc, pend.value);
        CacheSame(c, PushBlock(s, t, sc, pend.value), s');
      } else {
        CacheSame(c, s, s');
      }
    } else {
      assert CacheFits(c, s, t, sc) by { FitsAt(c, s, t, sc); }
      var (tail, n) := RunFrom(s.link, q.head, q.head.sb, q.num - 1);
      var q' := Cache(Word(s.link, tail), if n + 1 <= q.num then q.num - (n + 1) else 0);
      CacheSet(c, s, s, t, sc, q');
      CacheSame(c, WithCache(s, t, sc, q'), s');
    }
  }

  /** What the invariant says of a thread about to fill its cache. */
  predicate FillsRight(c: Config, p: PC) {
    && (p.ResCas? ==> p.seen.state.Empty? || p.seen.count <= Get(c.maxcount, p.sc, 0))
    && (p.Flush? && p.pend.Some? ==> Get(c.maxcount, p.sc, 0) > 0)
  }

  lemma ThreadFills(c: Config, states: seq<State>, steps: seq<Step>, t: nat, i: nat)
    requires IsRun(c, states, steps) && i < |states| && t in states[i].pc
    ensures FillsRight(c, states[i].pc[t])
  {
    var g := RunInv(c, states, steps, i);
    hide Inv;
    ThreadFacts(c, states[i], g, t);
  }

  lemma ActFits(c: Config, s: State, t: nat, fail: bool, junk: Loc)
    requires t in s.pc && CachesFit(c, s) && FillsRight(c, s.pc[t])
    ensures CachesFit(c, Act(c, s, t, fail, junk))
  {
    hide CachesFit, ActPop, ActReserve, ActSb, ActGrow, ActCache, ActCut, ActFlush, ActPush, ActRetire;
    var p := s.pc[t];
    if p.ResLoad? || p.ResCas? { ReserveFits(c, s, t, fail); }
    else if p.InitSb? || p.TakeBlock? { TakeFits(c, s, t, junk); }
    else if p.Flush? { CutFits(c, s, t); }
    else {
      CachesStay(c, s, t, fail);
      CachesStayToo(c, s, t, fail);
      CacheSame(c, s, Act(c, s, t, fail, junk));
    }
  }

  lemma StartFits(c: Config, s: State, e: Step)
    requires Enabled(c, s, e) && !e.Run? && CachesFit(c, s)
    ensures CachesFit(c, Apply(c, s, e))
  {
    hide CachesFit, At, PushBlock, CacheOf;
    var s' := Apply(c, s, e);
    if e.Free? {
      var sc, s1 := Get(s.cls, e.b.sb, 0), s.(user := s.user - {e.b});
      if CacheOf(s, e.t, sc).num < Get(c.maxcount, sc, 0) { PushFits(c, s, s1, e.t, sc, e.b); }
      else { CacheSame(c, s, s'); }
    } else {
      CacheSame(c, s, s');
    }
  }

  /** So it is in every reachable state. */
  lemma {:induction false} CachesBounded(c: Config, states: seq<State>, steps: seq<Step>, i: nat)
    requires IsRun(c, states, steps) && i < |states|
    ensures CachesFit(c, states[i])
  {
    if i > 0 {
      var s, e := states[i - 1], steps[i - 1];
      assert Enabled(c, s, e) && states[i] == Apply(c, s, e);
      CachesBounded(c, states, steps, i - 1);
      hide Act, CachesFit;
      if e.Run? {
        ThreadFills(c, states, steps, e.t, i - 1);
        ActFits(c, s, e.t, e.fail, e.junk);
      } else {
        StartFits(c, s, e);
      }
    }
  }
}
