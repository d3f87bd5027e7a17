/** The steps that change an anchor keep the invariant. */
module RallocAnchors {
  import opened Common
  import opened CountedStack
  import opened RallocMachine
  import opened RallocInvariant
  import opened RallocFrames
  import opened RallocSteps
  import opened RallocDescs
  import opened RallocBlocks

  /** No thread that popped superblock d saw it empty while its anchor says otherwise. */
  lemma NobodySawEmpty(c: Config, s: State, g: Ghost, d: nat)
    requires Inv(c, s, g) && d in s.anchor && !s.anchor[d].state.Empty?
    ensures forall u: nat :: SawEmpty(PcOf(s.pc, u)) ==> PcOf(s.pc, u).d != d && PcOf(s.pc, u).d in s.anchor
  {
    hide Inv;
    forall u: nat | SawEmpty(PcOf(s.pc, u)) ensures PcOf(s.pc, u).d != d && PcOf(s.pc, u).d in s.anchor {
      ThreadFacts(c, s, g, u);
    }
  }

  /** Popped and pushed descriptors have a class. */
  lemma HeldHaveClass(c: Config, s: State, g: Ghost)
    requires Inv(c, s, g)
    ensures forall u: nat :: HasDesc(PcOf(s.pc, u)) ==> PcOf(s.pc, u).d in s.cls
  {
    hide Inv;
    forall u: nat | HasDesc(PcOf(s.pc, u)) ensures PcOf(s.pc, u).d in s.cls { ThreadFacts(c, s, g, u); }
  }

  /** The free list of superblock d after a flush. */
  function Refilled(g: Ghost, t: nat, d: nat): Ghost {
    var batch, free := ListOf(g.lists, InBatch(t)), ListOf(g.lists, InFree(d));
    g.(owner := Reowned(g.owner, batch, InFree(d)), lists := g.lists[InBatch(t) := []][InFree(d) := batch + free])
  }

  /** What flush_cache's CAS does to the lists of blocks. */
  lemma RefillLists(c: Config, s: State, g: Ghost, t: nat)
    requires Inv(c, s, g) && t in s.pc && s.pc[t].FlCas? && AnchorOf(s, s.pc[t].run.head.sb) == s.pc[t].seen
    ensures
      var g' := Refilled(g, t, s.pc[t].run.head.sb);
      && DomainOk(c, s.cls, g'.owner) && OwnersOk(g'.owner, g'.lists) && UserOk(s.user, g'.lists)
      && LinksOk(s.link, g'.lists) && CachesOk(s.cls, s.cache, g'.lists)
  {
    hide DomainOk, OwnersOk, UserOk, LinksOk, CachesOk, BatchesOk, PendsOk, SeenOk, FillsOk, AvailOk, SuperblocksOk,
         PlacesOk, PartialsOk, StacksOk;
    hide Reowned, Word, Chained, NoDup;
    var d := s.pc[t].run.head.sb;
    var g' := Refilled(g, t, d);
    var batch, free := ListOf(g.lists, InBatch(t)), ListOf(g.lists, InFree(d));
    RefillParts(c, s, g, t);
    HandOver(g.owner, g.lists, batch, InBatch(t), [], InFree(d), batch + free);
    DomainReowned(c, s.cls, g.owner, batch, InFree(d));
    LinksHandedOver(s.link, g.lists, InBatch(t), [], InFree(d), batch + free);
    SameUser(s.user, g.lists, g'.lists);
    CachesUntouched(s.cls, s.cls, s.cache, g.lists, g'.lists);
  }

  lemma RefillParts(c: Config, s: State, g: Ghost, t: nat)
    requires Inv(c, s, g) && t in s.pc && s.pc[t].FlCas? && AnchorOf(s, s.pc[t].run.head.sb) == s.pc[t].seen
    ensures
      var p, d := s.pc[t], s.pc[t].run.head.sb;
      var batch, free := ListOf(g.lists, InBatch(t)), ListOf(g.lists, InFree(d));
      && NoDup(batch + free) && NoDup<Loc>([]) && Chained(s.link, batch + free) && Chained(s.link, [])
      && |batch| == p.run.len >= 1 && batch[0] == p.run.head && (forall b :: b in batch + free ==> b.sb == d)
      && d in s.cls && d in s.anchor && s.anchor[d] == p.seen && (p.seen.state.Full? || p.seen.state.Partial?)
      && p.seen.count == |free| && |free| + |batch| <= MaxOf(c, s.cls, d) && Holds(s.cls, d, p.sc) && p.sc in c.maxcount
      && ListOf(g.lists, Pending(t)) == (if p.pend.Some? then [p.pend.value] else [])
        && (p.pend.Some? ==> Holds(s.cls, p.pend.value.sb, p.sc))
      && (forall e: nat :: !OwnsPrivate(p, e) && !OwnsPopped(p, e) && !OwnsPushing(p, e) && !OwnsRetiring(p, e))
  {
    hide Inv;
    var p, d := s.pc[t], s.pc[t].run.head.sb;
    var batch, free := ListOf(g.lists, InBatch(t)), ListOf(g.lists, InFree(d));
    ThreadFacts(c, s, g, t);
    BatchFits(c, s, g, t);
    SuperblockFacts(c, s, g, d);
    OwnerFacts(c, s, g, InBatch(t));
    OwnerFacts(c, s, g, InFree(d));
    DisjointLists(g.owner, g.lists, InBatch(t), InFree(d));
    ChainedConcat(s.link, batch, free);
  }

  /** The thread-local conjuncts after flush_cache's CAS. */
  lemma RefillThreads(c: Config, s: State, g: Ghost, t: nat, p': PC, a: Anchor)
    requires Inv(c, s, g) && t in s.pc && s.pc[t].FlCas? && AnchorOf(s, s.pc[t].run.head.sb) == s.pc[t].seen
    requires
      var p, d := s.pc[t], s.pc[t].run.head.sb;
      p' == Flush(p.sc, p.pend) || p' == PpLoad(p.sc, p.pend, d) || p' == Erase(d, ThenFlush(p.sc, p.pend))
    ensures
      var d, pc' := s.pc[t].run.head.sb, s.pc[t := p'];
      var lists' := Refilled(g, t, d).lists;
      && BatchesOk(s.link, s.cls, lists', pc') && PendsOk(s.cls, lists', pc')
      && SeenOk(c, s.cls, s.anchor[d := a], pc') && FillsOk(s.cache, pc')
      && StacksOk(s.availHead, s.nextFree, g.avail, s.partialHead, s.nextPartial, g.partial, pc')
  {
    hide DomainOk, OwnersOk, UserOk, LinksOk, CachesOk, BatchesOk, PendsOk, SeenOk, FillsOk, AvailOk, SuperblocksOk,
         PlacesOk, PartialsOk, StacksOk, Chained, NoDup;
    var d := s.pc[t].run.head.sb;
    var lists' := Refilled(g, t, d).lists;
    RefillParts(c, s, g, t);
    NobodySawEmpty(c, s, g, d);
    HeldHaveClass(c, s, g);
    BatchesChanged(s.link, s.link, s.cls, s.cls, g.lists, lists', s.pc, t, p');
    PendsChanged(s.cls, s.cls, g.lists, lists', s.pc, t, p');
    SeenChanged(c, s.cls, s.cls, s.anchor, s.anchor[d := a], s.pc, t, p');
    FillsChanged(s.cache, s.cache, s.pc, t, p');
    StacksStay(c, s, g, t, p');
  }

  /** flush_cache's CAS on a superblock that already had free blocks. */
  lemma RefillPartialKeeps(c: Config, s: State, g: Ghost, t: nat)
    requires Inv(c, s, g) && t in s.pc && s.pc[t].FlCas? && AnchorOf(s, s.pc[t].run.head.sb) == s.pc[t].seen
      && !s.pc[t].seen.state.Full?
    ensures
      var p, d := s.pc[t], s.pc[t].run.head.sb;
      var a := FlushedAnchor(MaxOf(c, s.cls, d), p.seen, p.run);
      Inv(c, At(s.(anchor := s.anchor[d := a]), t, Flush(p.sc, p.pend)), Refilled(g, t, d))
  {
    hide DomainOk, OwnersOk, UserOk, LinksOk, CachesOk, BatchesOk, PendsOk, SeenOk, FillsOk, AvailOk, SuperblocksOk,
         PlacesOk, PartialsOk, StacksOk;
    hide Refilled;
    var p, d := s.pc[t], s.pc[t].run.head.sb;
    var a, p' := FlushedAnchor(MaxOf(c, s.cls, d), p.seen, p.run), Flush(p.sc, p.pend);
    RefillLists(c, s, g, t);
    RefillThreads(c, s, g, t, p', a);
    RefillPartialParts(c, s, g, t, a);
    SuperblockChanged(c, s.cls, s.anchor, s.anchor[d := a], g.lists, Refilled(g, t, d).lists, g.place, d);
    assert Refilled(g, t, d).place == g.place && Refilled(g, t, d).avail == g.avail
      && Refilled(g, t, d).partial == g.partial by { RefilledSame(g, t, d); }
  }

  lemma RefilledSame(g: Ghost, t: nat, d: nat)
    ensures Refilled(g, t, d).place == g.place && Refilled(g, t, d).avail == g.avail
      && Refilled(g, t, d).partial == g.partial
    ensures forall e: nat :: e != d ==> ListOf(Refilled(g, t, d).lists, InFree(e)) == ListOf(g.lists, InFree(e))
    ensures ListOf(Refilled(g, t, d).lists, InFree(d)) == ListOf(g.lists, InBatch(t)) + ListOf(g.lists, InFree(d))
  {
  }

  lemma RefillPartialParts(c: Config, s: State, g: Ghost, t: nat, a: Anchor)
    requires Inv(c, s, g) && t in s.pc && s.pc[t].FlCas? && AnchorOf(s, s.pc[t].run.head.sb) == s.pc[t].seen
      && !s.pc[t].seen.state.Full?
    requires a == FlushedAnchor(MaxOf(c, s.cls, s.pc[t].run.head.sb), s.pc[t].seen, s.pc[t].run)
    ensures
      var p, d := s.pc[t], s.pc[t].run.head.sb;
      && PlacesOk(s.top, s.cls, g.place, s.pc[t := Flush(p.sc, p.pend)])
      && SuperblockAt(c, s.cls, s.anchor[d := a], Refilled(g, t, d).lists, g.place, d)
      && (forall e: nat :: e != d ==> ListOf(Refilled(g, t, d).lists, InFree(e)) == ListOf(g.lists, InFree(e)))
  {
    hide Inv, Refilled, Chained, NoDup;
    var p, d := s.pc[t], s.pc[t].run.head.sb;
    RefillParts(c, s, g, t);
    RefilledSame(g, t, d);
    SuperblockFacts(c, s, g, d);
    SamePlaces(c, s, g, t, Flush(p.sc, p.pend));
  }

  /** flush_cache's CAS on a full superblock: the thread now has to push the descriptor or retire it. */
  lemma RefillFullKeeps(c: Config, s: State, g: Ghost, t: nat) returns (g': Ghost)
    requires Inv(c, s, g) && t in s.pc && s.pc[t].FlCas? && AnchorOf(s, s.pc[t].run.head.sb) == s.pc[t].seen
      && s.pc[t].seen.state.Full?
    ensures
      var p, d := s.pc[t], s.pc[t].run.head.sb;
      var a := FlushedAnchor(MaxOf(c, s.cls, d), p.seen, p.run);
      && g'.avail == g.avail && g'.partial == g.partial
      && Inv(c, At(s.(anchor := s.anchor[d := a]), t, if a.state.Empty? then Erase(d, ThenFlush(p.sc, p.pend))
        else PpLoad(p.sc, p.pend, d)), g')
  {
    hide DomainOk, OwnersOk, UserOk, LinksOk, CachesOk, BatchesOk, PendsOk, SeenOk, FillsOk, AvailOk, SuperblocksOk,
         PlacesOk, PartialsOk, StacksOk;
    hide Refilled, PlaceAt, SuperblockAt;
    var p, d := s.pc[t], s.pc[t].run.head.sb;
    var a := FlushedAnchor(MaxOf(c, s.cls, d), p.seen, p.run);
    var p', w := if a.state.Empty? then Erase(d, ThenFlush(p.sc, p.pend))
      else PpLoad(p.sc, p.pend, d), if a.state.Empty? then Retiring(t) else Pushing(t);
    RefilledSame(g, t, d);
    g' := Refilled(g, t, d).(place := Moved(g.place, {d}, w));
    RefillLists(c, s, g, t);
    RefillThreads(c, s, g, t, p', a);
    RefillFullParts(c, s, g, t, a, p', w);
    SuperblocksMoved(c, s.cls, s.cls, s.anchor, s.anchor[d := a], g.lists, g'.lists, g.place, {d}, w);
    PlacesMoved(s.top, s.cls, s.cls, g.place, s.pc, t, p', {d}, w);
    AvailUnmoved(s.availHead, s.nextFree, g.avail, g.place, {d}, w);
    PartialsUnmoved(s.partialHead, s.nextPartial, g.partial, g.place, s.cls, s.cls, {d}, w);
  }

  lemma RefillFullParts(c: Config, s: State, g: Ghost, t: nat, a: Anchor, p': PC, w: Place)
    requires Inv(c, s, g) && t in s.pc && s.pc[t].FlCas? && AnchorOf(s, s.pc[t].run.head.sb) == s.pc[t].seen
      && s.pc[t].seen.state.Full?
    requires a == FlushedAnchor(MaxOf(c, s.cls, s.pc[t].run.head.sb), s.pc[t].seen, s.pc[t].run)
    requires
      var p, d := s.pc[t], s.pc[t].run.head.sb;
      && p' == (if a.state.Empty? then Erase(d, ThenFlush(p.sc, p.pend)) else PpLoad(p.sc, p.pend, d))
      && w == (if a.state.Empty? then Retiring(t) else Pushing(t))
    ensures
      var d := s.pc[t].run.head.sb;
      && Holds(g.place, d, Floating) && d in s.cls
      && SuperblockAt(c, s.cls, s.anchor[d := a], Refilled(g, t, d).lists, Moved(g.place, {d}, w), d)
      && (forall e: nat :: PlaceAt(Moved(g.place, {d}, w), p', t, e))
  {
    hide Inv, Refilled, Chained, NoDup;
    var d := s.pc[t].run.head.sb;
    RefillParts(c, s, g, t);
    RefilledSame(g, t, d);
    SuperblockFacts(c, s, g, d);
    forall e: nat ensures PlaceAt(Moved(g.place, {d}, w), p', t, e) { PlaceFacts(c, s, g, t, e); }
  }

  /** malloc_from_partial's CAS: the superblock becomes full and all its free blocks go to the cache. */
  lemma ReserveKeeps(c: Config, s: State, g: Ghost, t: nat) returns (g': Ghost)
    requires Inv(c, s, g) && t in s.pc && s.pc[t].ResCas? && !s.pc[t].seen.state.Empty?
      && AnchorOf(s, s.pc[t].d) == s.pc[t].seen
    ensures s.pc[t].seen.state.Partial? && s.pc[t].seen.count > 0 && CacheOf(s, t, s.pc[t].sc).num == 0
    ensures g'.avail == g.avail && g'.partial == g.partial
    ensures
      var sc, d, seen := s.pc[t].sc, s.pc[t].d, s.pc[t].seen;
      Inv(c, At(WithCache(s.(anchor := s.anchor[d := Anchor(MaxOf(c, s.cls, d), 0, Full)]), t, sc,
        Cache(Loc(d, seen.avail), seen.count)), t, TakeBlock(sc)), g')
  {
    hide DomainOk, OwnersOk, UserOk, LinksOk, CachesOk, BatchesOk, PendsOk, SeenOk, FillsOk, AvailOk, SuperblocksOk,
         PlacesOk, PartialsOk, StacksOk;
    hide Reowned, Word, Chained, NoDup, PlaceAt, SuperblockAt;
    var sc, d, seen := s.pc[t].sc, s.pc[t].d, s.pc[t].seen;
    var a, q', p' := Anchor(MaxOf(c, s.cls, d), 0, Full), Cache(Loc(d, seen.avail), seen.count), TakeBlock(sc);
    var free := ListOf(g.lists, InFree(d));
    g' := g.(owner := Reowned(g.owner, free, InCache(t, sc)), lists := g.lists[InFree(d) := []][InCache(t, sc) := free],
             place := Moved(g.place, {d}, Floating));
    ReserveParts(c, s, g, t, g'.lists);
    HandOver(g.owner, g.lists, free, InFree(d), [], InCache(t, sc), free);
    DomainReowned(c, s.cls, g.owner, free, InCache(t, sc));
    EmptyChained(s.link);
    LinksHandedOver(s.link, g.lists, InFree(d), [], InCache(t, sc), free);
    SameUser(s.user, g.lists, g'.lists);
    CacheChanged(s.cls, s.cls, s.cache, g.lists, g'.lists, t, sc, q');
    SuperblocksMoved(c, s.cls, s.cls, s.anchor, s.anchor[d := a], g.lists, g'.lists, g.place, {d}, Floating);
    PlacesMoved(s.top, s.cls, s.cls, g.place, s.pc, t, p', {d}, Floating);
    AvailUnmoved(s.availHead, s.nextFree, g.avail, g.place, {d}, Floating);
    PartialsUnmoved(s.partialHead, s.nextPartial, g.partial, g.place, s.cls, s.cls, {d}, Floating);
    ReserveThreads(c, s, g, t, g'.lists, q', a);
  }

  lemma ReserveParts(c: Config, s: State, g: Ghost, t: nat, lists': map<Owner, seq<Loc>>)
    requires Inv(c, s, g) && t in s.pc && s.pc[t].ResCas? && !s.pc[t].seen.state.Empty?
      && AnchorOf(s, s.pc[t].d) == s.pc[t].seen
    requires
      var sc, d := s.pc[t].sc, s.pc[t].d;
      lists' == g.lists[InFree(d) := []][InCache(t, sc) := ListOf(g.lists, InFree(d))]
    ensures
      var sc, d, seen, place' := s.pc[t].sc, s.pc[t].d, s.pc[t].seen, Moved(g.place, {s.pc[t].d}, Floating);
      var free := ListOf(g.lists, InFree(d));
      && NoDup(free) && NoDup<Loc>([]) && Chained(s.link, free) && Holds(s.cls, d, sc) && sc in c.maxcount
      && seen.state.Partial? && |free| == seen.count > 0 && free[0] == Loc(d, seen.avail)
        && (forall b :: b in free ==> Holds(s.cls, b.sb, sc))
      && ListOf(g.lists, InCache(t, sc)) == [] && CacheOf(s, t, sc).num == 0
      && Holds(g.place, d, Popped(t))
      && SuperblockAt(c, s.cls, s.anchor[d := Anchor(MaxOf(c, s.cls, d), 0, Full)], lists', place', d)
      && (forall e: nat :: PlaceAt(place', TakeBlock(sc), t, e))
      && ListOf(g.lists, InBatch(t)) == [] && ListOf(g.lists, Pending(t)) == []
  {
    hide Inv, Chained, NoDup;
    var sc, d, place' := s.pc[t].sc, s.pc[t].d, Moved(g.place, {s.pc[t].d}, Floating);
    ThreadFacts(c, s, g, t);
    CacheFacts(c, s, g, t, sc);
    PlaceFacts(c, s, g, t, d);
    SuperblockFacts(c, s, g, d);
    OwnerFacts(c, s, g, InFree(d));
    OwnerFacts(c, s, g, InCache(t, sc));
    NoDupEmpty();
    forall e: nat ensures PlaceAt(place', TakeBlock(sc), t, e) { PlaceFacts(c, s, g, t, e); }
  }

  lemma NoDupEmpty()
    ensures NoDup<Loc>([])
  {
  }

  lemma ReserveThreads(c: Config, s: State, g: Ghost, t: nat, lists': map<Owner, seq<Loc>>, q': Cache, a: Anchor)
    requires Inv(c, s, g) && t in s.pc && s.pc[t].ResCas? && !s.pc[t].seen.state.Empty?
      && AnchorOf(s, s.pc[t].d) == s.pc[t].seen
    requires
      var sc, d := s.pc[t].sc, s.pc[t].d;
      lists' == g.lists[InFree(d) := []][InCache(t, sc) := ListOf(g.lists, InFree(d))]
    requires q'.num > 0
    ensures
      var sc, d := s.pc[t].sc, s.pc[t].d;
      var pc' := s.pc[t := TakeBlock(sc)];
      && BatchesOk(s.link, s.cls, lists', pc') && PendsOk(s.cls, lists', pc')
      && SeenOk(c, s.cls, s.anchor[d := a], pc') && FillsOk(s.cache[(t, sc) := q'], pc')
      && StacksOk(s.availHead, s.nextFree, g.avail, s.partialHead, s.nextPartial, g.partial, pc')
  {
    hide DomainOk, OwnersOk, UserOk, LinksOk, CachesOk, BatchesOk, PendsOk, SeenOk, FillsOk, AvailOk, SuperblocksOk,
         PlacesOk, PartialsOk, StacksOk;
    hide Chained, NoDup, SuperblockAt, PlaceAt;
    var sc, d, p' := s.pc[t].sc, s.pc[t].d, TakeBlock(s.pc[t].sc);
    ReserveParts(c, s, g, t, lists');
    SuperblockFacts(c, s, g, d);
    assert d in s.anchor && !s.anchor[d].state.Empty? by { AnchorThere(c, s, g, d); }
    NobodySawEmpty(c, s, g, d);
    HeldHaveClass(c, s, g);
    BatchesChanged(s.link, s.link, s.cls, s.cls, g.lists, lists', s.pc, t, p');
    PendsChanged(s.cls, s.cls, g.lists, lists', s.pc, t, p');
    SeenChanged(c, s.cls, s.cls, s.anchor, s.anchor[d := a], s.pc, t, p');
    FillsChanged(s.cache, s.cache[(t, sc) := q'], s.pc, t, p');
    StacksStay(c, s, g, t, p');
  }

  lemma AnchorThere(c: Config, s: State, g: Ghost, d: nat)
    requires Inv(c, s, g) && d in s.cls
    ensures d in s.anchor && AnchorOf(s, d) == s.anchor[d]
  {
    hide Inv;
    SuperblockFacts(c, s, g, d);
  }

  /** All the blocks of a superblock, in address order. */
  function BlocksOf(d: nat, m: nat): (r: seq<Loc>)
    ensures |r| == m && (forall i :: 0 <= i < m ==> r[i] == Loc(d, i))
    ensures forall b :: b in r <==> b.sb == d && b.idx < m
  {
    if m == 0 then [] else BlocksOf(d, m - 1) + [Loc(d, m - 1)]
  }

  function Handed(l: seq<Loc>, o: Owner): map<Loc, Owner> { map b | b in l :: o }

  /** malloc_from_newsb: the superblock is formatted and all its blocks go to the cache. */
  lemma InitKeeps(c: Config, s: State, g: Ghost, t: nat, junk: Loc) returns (g': Ghost)
    requires Inv(c, s, g) && t in s.pc && s.pc[t].InitSb?
    ensures s.pc[t].d !in s.cls
    ensures g'.avail == g.avail && g'.partial == g.partial
    ensures
      var sc, d := s.pc[t].sc, s.pc[t].d;
      var m := Get(c.maxcount, sc, 0);
      Inv(c, At(WithCache(s.(cls := s.cls[d := sc], link := s.link + FreshLinks(d, m, junk),
        anchor := s.anchor[d := Anchor(m, 0, Full)]),
                          t, sc, Cache(Loc(d, 0), m)), t, TakeBlock(sc)), g')
  {
    hide DomainOk, OwnersOk, UserOk, LinksOk, CachesOk, BatchesOk, PendsOk, SeenOk, FillsOk, AvailOk, SuperblocksOk,
         PlacesOk, PartialsOk, StacksOk;
    hide Word, Chained, NoDup, BlocksOf, FreshLinks, Handed, Moved;
    var sc, d := s.pc[t].sc, s.pc[t].d;
    var m := Get(c.maxcount, sc, 0);
    var q', l := Cache(Loc(d, 0), m), BlocksOf(d, m);
    g' := g.(owner := g.owner + Handed(l, InCache(t, sc)), lists := g.lists[InCache(t, sc) := l],
      place := Moved(g.place, {d}, Floating));
    InitPlaces(c, s, g, t, g'.lists);
    InitOwners(c, s, g, t, d, sc, l);
    InitLinks(c, s, g, d, m, junk, InCache(t, sc));
    SameUser(s.user, g.lists, g'.lists);
    CacheChanged(s.cls, s.cls[d := sc], s.cache, g.lists, g'.lists, t, sc, q');
    InitThreads(c, s, g, t, g'.lists, s.link + FreshLinks(d, m, junk)) by { FreshElsewhere(s.link, d, m, junk); }
    FillsChanged(s.cache, s.cache[(t, sc) := q'], s.pc, t, TakeBlock(sc));
    StacksStay(c, s, g, t, TakeBlock(sc));
  }

  lemma FreshElsewhere(link: map<Loc, Loc>, d: nat, m: nat, junk: Loc)
    ensures forall b: Loc :: b.sb != d ==> Word(link + FreshLinks(d, m, junk), b) == Word(link, b)
  {
  }

  lemma InitPlaces(c: Config, s: State, g: Ghost, t: nat, lists': map<Owner, seq<Loc>>)
    requires Inv(c, s, g) && t in s.pc && s.pc[t].InitSb?
    requires lists' == g.lists[InCache(t, s.pc[t].sc) := BlocksOf(s.pc[t].d, Get(c.maxcount, s.pc[t].sc, 0))]
    ensures
      var sc, d := s.pc[t].sc, s.pc[t].d;
      var m, place', cls' := Get(c.maxcount, sc, 0), Moved(g.place, {d}, Floating), s.cls[d := sc];
      && sc in c.maxcount && m >= 1 && d !in s.cls && ListOf(g.lists, InCache(t, sc)) == []
      && SuperblocksOk(c, cls', s.anchor[d := Anchor(m, 0, Full)], lists', place')
      && PlacesOk(s.top, cls', place', s.pc[t := TakeBlock(sc)])
      && AvailOk(s.availHead, s.nextFree, g.avail, place')
      && PartialsOk(s.partialHead, s.nextPartial, g.partial, place', cls')
  {
    hide DomainOk, OwnersOk, UserOk, LinksOk, CachesOk, BatchesOk, PendsOk, SeenOk, FillsOk, AvailOk, SuperblocksOk,
         PlacesOk, PartialsOk, StacksOk;
    hide PlaceAt, SuperblockAt, BlocksOf;
    var sc, d := s.pc[t].sc, s.pc[t].d;
    var m, cls', p' := Get(c.maxcount, sc, 0), s.cls[d := sc], TakeBlock(sc);
    InitParts(c, s, g, t, lists');
    SuperblocksMoved(c, s.cls, cls', s.anchor, s.anchor[d := Anchor(m, 0, Full)], g.lists, lists', g.place, {d},
        Floating);
    PlacesMoved(s.top, s.cls, cls', g.place, s.pc, t, p', {d}, Floating);
    AvailUnmoved(s.availHead, s.nextFree, g.avail, g.place, {d}, Floating);
    PartialsUnmoved(s.partialHead, s.nextPartial, g.partial, g.place, s.cls, cls', {d}, Floating);
  }

  lemma InitParts(c: Config, s: State, g: Ghost, t: nat, lists': map<Owner, seq<Loc>>)
    requires Inv(c, s, g) && t in s.pc && s.pc[t].InitSb?
    requires lists' == g.lists[InCache(t, s.pc[t].sc) := BlocksOf(s.pc[t].d, Get(c.maxcount, s.pc[t].sc, 0))]
    ensures
      var sc, d := s.pc[t].sc, s.pc[t].d;
      var m, place' := Get(c.maxcount, sc, 0), Moved(g.place, {d}, Floating);
      && sc in c.maxcount && m >= 1 && d !in s.cls && Holds(g.place, d, Private(t))
      && SuperblockAt(c, s.cls[d := sc], s.anchor[d := Anchor(m, 0, Full)], lists', place', d)
      && (forall e: nat :: PlaceAt(place', TakeBlock(sc), t, e))
      && ListOf(g.lists, InBatch(t)) == [] && ListOf(g.lists, Pending(t)) == [] && ListOf(g.lists, InCache(t, sc)) == []
  {
    assert c.Valid();
    hide Inv;
    var sc, d, place' := s.pc[t].sc, s.pc[t].d, Moved(g.place, {s.pc[t].d}, Floating);
    InitPlaceMoves(c, s, g, t);
    hide PlaceAt;
    ThreadFacts(c, s, g, t);
    CacheFacts(c, s, g, t, sc);
    SuperblockFacts(c, s, g, d);
  }

  lemma InitPlaceMoves(c: Config, s: State, g: Ghost, t: nat)
    requires Inv(c, s, g) && t in s.pc && s.pc[t].InitSb?
    ensures Holds(g.place, s.pc[t].d, Private(t))
    ensures forall e: nat :: PlaceAt(Moved(g.place, {s.pc[t].d}, Floating), TakeBlock(s.pc[t].sc), t, e)
  {
    hide Inv;
    PlaceFacts(c, s, g, t, s.pc[t].d);
    forall e: nat ensures PlaceAt(Moved(g.place, {s.pc[t].d}, Floating), TakeBlock(s.pc[t].sc), t, e) {
      PlaceFacts(c, s, g, t, e);
    }
  }

  /** Owned blocks lie in superblocks that have a class. */
  lemma OwnedHaveClass(c: Config, s: State, g: Ghost, o: Owner, b: Loc)
    requires Inv(c, s, g) && b in ListOf(g.lists, o)
    ensures b.sb in s.cls && b in g.owner && g.owner[b] == o && b.idx < MaxOf(c, s.cls, b.sb)
  {
    assert Lists(g.owner, ListOf(g.lists, o), o);
    assert Holds(g.owner, b, o);
    hide OwnersOk, UserOk, LinksOk, CachesOk, BatchesOk, PendsOk, SeenOk, FillsOk, AvailOk, SuperblocksOk, PlacesOk,
         PartialsOk, StacksOk;
  }

  lemma InitOwners(c: Config, s: State, g: Ghost, t: nat, d: nat, sc: nat, l: seq<Loc>)
    requires Inv(c, s, g) && d !in s.cls && sc in c.maxcount && l == BlocksOf(d, c.maxcount[sc])
    requires ListOf(g.lists, InCache(t, sc)) == []
    ensures
      var owner' := g.owner + Handed(l, InCache(t, sc));
      DomainOk(c, s.cls[d := sc], owner') && OwnersOk(owner', g.lists[InCache(t, sc) := l])
  {
    hide UserOk, LinksOk, CachesOk, BatchesOk, PendsOk, SeenOk, FillsOk, AvailOk, SuperblocksOk, PlacesOk, PartialsOk,
         StacksOk, BlocksOf;
    var owner', lists' := g.owner + Handed(l, InCache(t, sc)), g.lists[InCache(t, sc) := l];
    forall o ensures Lists(owner', ListOf(lists', o), o) {
      assert Lists(g.owner, ListOf(g.lists, o), o);
      forall b ensures b in ListOf(lists', o) <==> Holds(owner', b, o) {
        assert b in g.owner ==> b.sb != d;
        assert b in l ==> b.sb == d;
        assert o == InCache(t, sc) ==> !Holds(g.owner, b, o);
      }
    }
  }

  lemma InitLinks(c: Config, s: State, g: Ghost, d: nat, m: nat, junk: Loc, o: Owner)
    requires Inv(c, s, g) && d !in s.cls && o != User
    ensures LinksOk(s.link + FreshLinks(d, m, junk), g.lists[o := BlocksOf(d, m)])
  {
    var link', lists' := s.link + FreshLinks(d, m, junk), g.lists[o := BlocksOf(d, m)];
    forall o' | o' != User ensures Chained(link', ListOf(lists', o')) {
      if o' != o {
        var l := ListOf(g.lists, o');
        hide Inv, BlocksOf;
        OwnerFacts(c, s, g, o');
        forall i | 0 <= i < |l| - 1 ensures Word(link', l[i]) == l[i + 1] {
          OwnedHaveClass(c, s, g, o', l[i]);
        }
      } else {
        FreshChained(s.link, d, m, junk);
      }
    }
  }

  lemma FreshChained(link: map<Loc, Loc>, d: nat, m: nat, junk: Loc)
    ensures Chained(link + FreshLinks(d, m, junk), BlocksOf(d, m))
  {
    hide BlocksOf;
    var l, link' := BlocksOf(d, m), link + FreshLinks(d, m, junk);
    forall i | 0 <= i < |l| - 1 ensures Word(link', l[i]) == l[i + 1] {
      assert l[i] == Loc(d, i) && FreshLinks(d, m, junk)[Loc(d, i)] == FreshWord(d, m, junk, i);
    }
  }

  lemma InitThreads(c: Config, s: State, g: Ghost, t: nat, lists': map<Owner, seq<Loc>>, link': map<Loc, Loc>)
    requires Inv(c, s, g) && t in s.pc && s.pc[t].InitSb?
    requires lists' == g.lists[InCache(t, s.pc[t].sc) := BlocksOf(s.pc[t].d, Get(c.maxcount, s.pc[t].sc, 0))]
    requires forall b: Loc :: b.sb != s.pc[t].d ==> Word(link', b) == Word(s.link, b)
    ensures
      var sc, d := s.pc[t].sc, s.pc[t].d;
      var m, pc', cls' := Get(c.maxcount, sc, 0), s.pc[t := TakeBlock(sc)], s.cls[d := sc];
      && BatchesOk(link', cls', lists', pc') && PendsOk(cls', lists', pc')
      && SeenOk(c, cls', s.anchor[d := Anchor(m, 0, Full)], pc')
  {
    hide DomainOk, OwnersOk, UserOk, LinksOk, CachesOk, BatchesOk, PendsOk, SeenOk, FillsOk, AvailOk, SuperblocksOk,
         PlacesOk, PartialsOk, StacksOk;
    hide Word, Chained, NoDup, SuperblockAt, PlaceAt, BlocksOf;
    var sc, d, p' := s.pc[t].sc, s.pc[t].d, TakeBlock(s.pc[t].sc);
    var m, cls' := Get(c.maxcount, sc, 0), s.cls[d := sc];
    InitParts(c, s, g, t, lists');
    OthersElsewhere(c, s, g, t, d);
    BatchesChanged(s.link, link', s.cls, cls', g.lists, lists', s.pc, t, p');
    PendsChanged(s.cls, cls', g.lists, lists', s.pc, t, p');
    SeenChanged(c, s.cls, cls', s.anchor, s.anchor[d := Anchor(m, 0, Full)], s.pc, t, p');
  }

  /** Other threads work on superblocks that have a class and that t does not own. */
  lemma OthersElsewhere(c: Config, s: State, g: Ghost, t: nat, d: nat)
    requires Inv(c, s, g) && d in g.place && (g.place[d] == Private(t) || g.place[d] == Retiring(t))
    ensures forall u: nat :: u != t && Flushing(PcOf(s.pc, u)) ==>
              var q := PcOf(s.pc, u); q.run.head.sb != d && q.run.tail.sb != d && Holds(s.cls, q.run.head.sb, q.sc)
    ensures forall u: nat :: u != t && PendOf(PcOf(s.pc, u)).Some? ==>
              var b := PendOf(PcOf(s.pc, u)).value; b.sb in s.cls && b.sb != d
    ensures forall u: nat :: u != t && HasDesc(PcOf(s.pc, u)) ==>
              var e := PcOf(s.pc, u).d; e in s.cls && e != d && (SawEmpty(PcOf(s.pc, u)) ==> e in s.anchor)
  {
    hide Inv;
    forall u: nat | u != t && Flushing(PcOf(s.pc, u))
      ensures var q := PcOf(s.pc, u); q.run.head.sb != d && q.run.tail.sb != d && Holds(s.cls, q.run.head.sb, q.sc)
    {
      ThreadFacts(c, s, g, u);
      var l := ListOf(g.lists, InBatch(u));
      assert l[0] in l && l[|l| - 1] in l;
      NotInMySuperblock(c, s, g, t, d, InBatch(u), l[0]);
    }
    forall u: nat | u != t && PendOf(PcOf(s.pc, u)).Some?
      ensures var b := PendOf(PcOf(s.pc, u)).value; b.sb in s.cls && b.sb != d
    {
      ThreadFacts(c, s, g, u);
      NotInMySuperblock(c, s, g, t, d, Pending(u), PendOf(PcOf(s.pc, u)).value);
    }
    forall u: nat | u != t && HasDesc(PcOf(s.pc, u))
      ensures var e := PcOf(s.pc, u).d; e in s.cls && e != d && (SawEmpty(PcOf(s.pc, u)) ==> e in s.anchor)
    {
      ThreadFacts(c, s, g, u);
      PlaceFacts(c, s, g, u, PcOf(s.pc, u).d);
    }
  }

  /** A superblock that is private or about to be retired has no block in anybody's hands. */
  lemma NotInMySuperblock(c: Config, s: State, g: Ghost, t: nat, d: nat, o: Owner, b: Loc)
    requires Inv(c, s, g) && d in g.place && (g.place[d] == Private(t) || g.place[d] == Retiring(t))
    requires b in ListOf(g.lists, o) && o != InFree(d)
    ensures b.sb != d && b.sb in s.cls
  {
    OwnedHaveClass(c, s, g, o, b) by { hide Inv; }
    assert d in s.cls ==> InUse(g.place[d]) by {
      hide DomainOk, OwnersOk, UserOk, LinksOk, CachesOk, BatchesOk, PendsOk, SeenOk, FillsOk, AvailOk, SuperblocksOk,
           PartialsOk, StacksOk, PlaceAt;
    }
    if b.sb == d { AllFree(c, s, g, t, d, b) by { hide Inv; } }
  }

  /** In an empty superblock every block is on the free list. */
  lemma AllFree(c: Config, s: State, g: Ghost, t: nat, d: nat, b: Loc)
    requires Inv(c, s, g) && d in s.cls && Holds(g.place, d, Retiring(t))
    requires b.sb == d && b in g.owner && b.idx < MaxOf(c, s.cls, d)
    ensures g.owner[b] == InFree(d)
  {
    hide Inv;
    SuperblockFacts(c, s, g, d);
    OwnerFacts(c, s, g, InFree(d));
    var l, m := ListOf(g.lists, InFree(d)), MaxOf(c, s.cls, d);
    var idx := seq(|l|, i requires 0 <= i < |l| => l[i].idx);
    forall i, j | 0 <= i < j < |idx| ensures idx[i] != idx[j] { assert l[i] in l && l[j] in l && l[i] != l[j]; }
    forall x | x in idx ensures x < m {
      var i :| 0 <= i < |idx| && idx[i] == x;
      OwnedHaveClass(c, s, g, InFree(d), l[i]);
    }
    Pigeonhole(idx, m);
    assert b.idx in idx;
    var i :| 0 <= i < |idx| && idx[i] == b.idx;
    assert l[i] in l;
  }

  // ---- small_sb_retire ----

  /** Erasing the link fields of a retiring descriptor reaches no list and no pop in progress. */
  lemma EraseNextsKeeps(c: Config, s: State, g: Ghost, t: nat)
    requires Inv(c, s, g) && t in s.pc && s.pc[t].Erase?
    ensures Inv(c, s.(nextFree := s.nextFree[s.pc[t].d := None], nextPartial := s.nextPartial[s.pc[t].d := None]), g)
  {
    hide DomainOk, OwnersOk, UserOk, LinksOk, CachesOk, BatchesOk, PendsOk, SeenOk, FillsOk, AvailOk, SuperblocksOk,
         PlacesOk, PartialsOk, StacksOk;
    hide StackAt, PlaceAt;
    var p, d := s.pc[t], s.pc[t].d;
    EraseParts(c, s, g, t);
    assert s.pc[t := p] == s.pc;
    StacksAfterPartialWrite(s.top, s.cls, g.place, s.availHead, s.nextFree, g.avail, s.partialHead, s.nextPartial,
        g.partial, s.pc, t, p, d, None);
    StacksAfterFreeWrite(s.top, s.cls, g.place, s.availHead, s.nextFree, g.avail, s.partialHead,
        s.nextPartial[d := None], g.partial, s.pc, t, p, d, None);
  }

  lemma EraseParts(c: Config, s: State, g: Ghost, t: nat)
    requires Inv(c, s, g) && t in s.pc && s.pc[t].Erase?
    ensures
      var p, d := s.pc[t], s.pc[t].d;
      && Holds(g.place, d, Retiring(t)) && d in s.cls && !p.k.ThenInit? && p.k.sc in c.maxcount
      && d in s.anchor && s.anchor[d].state.Empty?
      && StackAt(s.availHead, s.nextFree, g.avail, s.partialHead, s.nextPartial[d := None], g.partial, p)
      && StackAt(s.availHead, s.nextFree[d := None], g.avail, s.partialHead, s.nextPartial[d := None], g.partial, p)
  {
    hide Inv;
    ThreadFacts(c, s, g, t);
    PlaceFacts(c, s, g, t, s.pc[t].d);
    SuperblockFacts(c, s, g, s.pc[t].d);
  }

  /** Forgetting the class of an empty superblock: its blocks stop being anybody's. */
  lemma ForgetKeeps(c: Config, s: State, g: Ghost, t: nat) returns (g': Ghost)
    requires Inv(c, s, g) && t in s.pc && s.pc[t].Erase?
    ensures g'.avail == g.avail && g'.partial == g.partial
    ensures
      var d, k := s.pc[t].d, s.pc[t].k;
      Inv(c, At(s.(cls := s.cls - {d}, anchor := s.anchor - {d}), t, ChLoad(d, d, k)), g')
  {
    hide DomainOk, OwnersOk, UserOk, LinksOk, CachesOk, BatchesOk, PendsOk, SeenOk, FillsOk, AvailOk, SuperblocksOk,
         PlacesOk, PartialsOk, StacksOk;
    hide StackAt, PlaceAt, SuperblockAt, Moved;
    var d, k := s.pc[t].d, s.pc[t].k;
    var p', cls', anchor' := ChLoad(d, d, k), s.cls - {d}, s.anchor - {d};
    g' := g.(owner := Elsewhere(g.owner, d), lists := g.lists[InFree(d) := []],
      place := Moved(g.place, {d}, Private(t)));
    ForgetOwners(c, s, g, t, d);
    ForgetPlaces(c, s, g, t, p', g'.lists);
    ForgetThreads(c, s, g, t, p', g'.lists);
    SameUser(s.user, g.lists, g'.lists);
    EmptyChained(s.link);
    ForgetLinks(s.link, g.lists, d);
    FillsChanged(s.cache, s.cache, s.pc, t, p');
    StacksStay(c, s, g, t, p');
  }

  function Elsewhere(owner: map<Loc, Owner>, d: nat): map<Loc, Owner> { map b | b in owner && b.sb != d :: owner[b] }

  lemma ForgetLinks(link: map<Loc, Loc>, lists: map<Owner, seq<Loc>>, d: nat)
    requires LinksOk(link, lists)
    ensures LinksOk(link, lists[InFree(d) := []])
  {
    hide Chained;
    EmptyChained(link);
    var lists' := lists[InFree(d) := []];
    forall o | o != User ensures Chained(link, ListOf(lists', o)) { assert Chained(link, ListOf(lists, o)); }
  }

  lemma ForgetOwners(c: Config, s: State, g: Ghost, t: nat, d: nat)
    requires Inv(c, s, g) && t in s.pc && s.pc[t].Erase? && s.pc[t].d == d
    ensures DomainOk(c, s.cls - {d}, Elsewhere(g.owner, d)) && OwnersOk(Elsewhere(g.owner, d), g.lists[InFree(d) := []])
  {
    EraseParts(c, s, g, t) by { hide Inv; }
    hide UserOk, LinksOk, CachesOk, BatchesOk, PendsOk, SeenOk, FillsOk, AvailOk, SuperblocksOk, PlacesOk, PartialsOk,
         StacksOk, StackAt;
    var owner', lists' := Elsewhere(g.owner, d), g.lists[InFree(d) := []];
    forall o ensures Lists(owner', ListOf(lists', o), o) {
      assert Lists(g.owner, ListOf(g.lists, o), o);
      forall b ensures b in ListOf(lists', o) <==> Holds(owner', b, o) {
        if o == InFree(d) {
          if Holds(g.owner, b, o) { FreeInside(c, s, g, d, b); }
        } else if b in ListOf(g.lists, o) {
          NotInMySuperblock(c, s, g, t, d, o, b);
        }
      }
    }
  }

  lemma FreeInside(c: Config, s: State, g: Ghost, d: nat, b: Loc)
    requires Inv(c, s, g) && d in s.cls && Holds(g.owner, b, InFree(d))
    ensures b.sb == d
  {
    hide Inv;
    OwnerFacts(c, s, g, InFree(d));
    SuperblockFacts(c, s, g, d);
    assert b in ListOf(g.lists, InFree(d));
  }

  lemma ForgetPlaces(c: Config, s: State, g: Ghost, t: nat, p': PC, lists': map<Owner, seq<Loc>>)
    requires Inv(c, s, g) && t in s.pc && s.pc[t].Erase? && p' == ChLoad(s.pc[t].d, s.pc[t].d, s.pc[t].k)
    requires lists' == g.lists[InFree(s.pc[t].d) := []]
    ensures
      var d := s.pc[t].d;
      var place', cls' := Moved(g.place, {d}, Private(t)), s.cls - {d};
      && SuperblocksOk(c, cls', s.anchor - {d}, lists', place')
      && PlacesOk(s.top, cls', place', s.pc[t := p'])
      && AvailOk(s.availHead, s.nextFree, g.avail, place')
      && PartialsOk(s.partialHead, s.nextPartial, g.partial, place', cls')
  {
    hide DomainOk, OwnersOk, UserOk, LinksOk, CachesOk, BatchesOk, PendsOk, SeenOk, FillsOk, AvailOk, SuperblocksOk,
         PlacesOk, PartialsOk, StacksOk;
    hide PlaceAt, StackAt;
    var d := s.pc[t].d;
    var place', cls' := Moved(g.place, {d}, Private(t)), s.cls - {d};
    EraseParts(c, s, g, t);
    forall e: nat ensures PlaceAt(place', p', t, e) { ForgetPlaceAt(c, s, g, t, e); }
    SuperblocksMoved(c, s.cls, cls', s.anchor, s.anchor - {d}, g.lists, lists', g.place, {d}, Private(t));
    PlacesMoved(s.top, s.cls, cls', g.place, s.pc, t, p', {d}, Private(t));
    AvailUnmoved(s.availHead, s.nextFree, g.avail, g.place, {d}, Private(t));
    PartialsUnmoved(s.partialHead, s.nextPartial, g.partial, g.place, s.cls, cls', {d}, Private(t));
  }

  lemma ForgetPlaceAt(c: Config, s: State, g: Ghost, t: nat, e: nat)
    requires Inv(c, s, g) && t in s.pc && s.pc[t].Erase?
    ensures var d := s.pc[t].d; PlaceAt(Moved(g.place, {d}, Private(t)), ChLoad(d, d, s.pc[t].k), t, e)
  {
    hide Inv;
    PlaceFacts(c, s, g, t, e);
    PlaceFacts(c, s, g, t, s.pc[t].d);
    EraseParts(c, s, g, t);
  }

  lemma ForgetThreads(c: Config, s: State, g: Ghost, t: nat, p': PC, lists': map<Owner, seq<Loc>>)
    requires Inv(c, s, g) && t in s.pc && s.pc[t].Erase? && p' == ChLoad(s.pc[t].d, s.pc[t].d, s.pc[t].k)
    requires lists' == g.lists[InFree(s.pc[t].d) := []]
    ensures
      var d := s.pc[t].d;
      var cls', pc' := s.cls - {d}, s.pc[t := p'];
      && BatchesOk(s.link, cls', lists', pc') && PendsOk(cls', lists', pc') && SeenOk(c, cls', s.anchor - {d}, pc')
      && CachesOk(cls', s.cache, lists') && FillAt(s.cache, p', t)
      && StackAt(s.availHead, s.nextFree, g.avail, s.partialHead, s.nextPartial, g.partial, p')
  {
    hide DomainOk, OwnersOk, UserOk, LinksOk, CachesOk, BatchesOk, PendsOk, SeenOk, FillsOk, AvailOk, SuperblocksOk,
         PlacesOk, PartialsOk, StacksOk;
    hide PlaceAt, StackAt, FillAt, BatchAt, PendAt, SeenAt;
    var d := s.pc[t].d;
    var cls' := s.cls - {d};
    EraseParts(c, s, g, t);
    OthersElsewhere(c, s, g, t, d);
    ForgetThreadAt(c, s, g, t, p', lists');
    BatchesChanged(s.link, s.link, s.cls, cls', g.lists, lists', s.pc, t, p');
    PendsChanged(s.cls, cls', g.lists, lists', s.pc, t, p');
    SeenChanged(c, s.cls, cls', s.anchor, s.anchor - {d}, s.pc, t, p');
    CachesUntouched(s.cls, cls', s.cache, g.lists, lists');
  }

  lemma ForgetThreadAt(c: Config, s: State, g: Ghost, t: nat, p': PC, lists': map<Owner, seq<Loc>>)
    requires Inv(c, s, g) && t in s.pc && s.pc[t].Erase? && p' == ChLoad(s.pc[t].d, s.pc[t].d, s.pc[t].k)
    requires lists' == g.lists[InFree(s.pc[t].d) := []]
    ensures
      var d, cls' := s.pc[t].d, s.cls - {s.pc[t].d};
      && BatchAt(s.link, cls', lists', p', t) && PendAt(cls', lists', p', t) && SeenAt(c, cls', s.anchor - {d}, p')
        && FillAt(s.cache, p', t)
      && StackAt(s.availHead, s.nextFree, g.avail, s.partialHead, s.nextPartial, g.partial, p')
      && (forall u: nat, sc: nat, b :: b in ListOf(g.lists, InCache(u, sc)) ==> Holds(cls', b.sb, sc))
  {
    hide Inv;
    var d, cls' := s.pc[t].d, s.cls - {s.pc[t].d};
    ThreadFacts(c, s, g, t);
    EraseParts(c, s, g, t);
    if PendOf(p').Some? { NotInMySuperblock(c, s, g, t, d, Pending(t), PendOf(p').value); }
    forall u: nat, sc: nat, b | b in ListOf(g.lists, InCache(u, sc)) ensures Holds(cls', b.sb, sc) {
      CacheFacts(c, s, g, u, sc);
      NotInMySuperblock(c, s, g, t, d, InCache(u, sc), b);
    }
  }

  /** small_sb_retire erases the descriptor: the superblock was empty and in use, and is in use no more. */
  lemma EraseKeeps(c: Config, s: State, g: Ghost, t: nat) returns (g': Ghost)
    requires Inv(c, s, g) && t in s.pc && s.pc[t].Erase?
    ensures s.pc[t].d in s.cls && AnchorOf(s, s.pc[t].d).state.Empty?
    ensures g'.avail == g.avail && g'.partial == g.partial
    ensures
      var d, k := s.pc[t].d, s.pc[t].k;
      Inv(c, At(s.(nextFree := s.nextFree[d := None], nextPartial := s.nextPartial[d := None],
                   cls := s.cls - {d}, anchor := s.anchor - {d}), t, ChLoad(d, d, k)), g')
  {
    hide Inv;
    var d := s.pc[t].d;
    EraseParts(c, s, g, t);
    EraseNextsKeeps(c, s, g, t);
    g' := ForgetKeeps(c, s.(nextFree := s.nextFree[d := None], nextPartial := s.nextPartial[d := None]), g, t);
  }
}
