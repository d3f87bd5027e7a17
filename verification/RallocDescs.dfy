/** The steps that move descriptors between the lists and the threads keep the invariant. */
module RallocDescs {
  import opened Common
  import opened CountedStack
  import opened RallocMachine
  import opened RallocInvariant
  import opened RallocFrames
  import opened RallocSteps

  /** The conjuncts about places when one descriptor in use changes hands. */
  lemma DescMoves(c: Config, s: State, g: Ghost, t: nat, p: PC, d: nat, w: Place)
    requires Inv(c, s, g) && t in s.pc && d in s.cls && d in g.place
    requires (Shared(g.place[d]) || HeldBy(g.place[d], t)) && (Shared(w) || HeldBy(w, t)) && InUse(w)
    requires SuperblockAt(c, s.cls, s.anchor, g.lists, Moved(g.place, {d}, w), d)
    requires forall e: nat :: PlaceAt(Moved(g.place, {d}, w), p, t, e)
    ensures PlacesOk(s.top, s.cls, Moved(g.place, {d}, w), s.pc[t := p])
    ensures AvailOk(s.availHead, s.nextFree, g.avail, Moved(g.place, {d}, w))
    ensures SuperblocksOk(c, s.cls, s.anchor, g.lists, Moved(g.place, {d}, w))
  {
    hide DomainOk, OwnersOk, UserOk, LinksOk, CachesOk, PartialsOk, BatchesOk, PendsOk, SeenOk, StacksOk, FillsOk,
         IsList;
    hide PlaceAt, SuperblockAt;
    PlacesMoved(s.top, s.cls, s.cls, g.place, s.pc, t, p, {d}, w);
    AvailUnmoved(s.availHead, s.nextFree, g.avail, g.place, {d}, w);
    SuperblocksMoved(c, s.cls, s.cls, s.anchor, s.anchor, g.lists, g.lists, g.place, {d}, w);
  }

  /** The thread-local conjuncts when one thread moves and no block or anchor changes. */
  lemma ThreadMoves(c: Config, s: State, g: Ghost, t: nat, p: PC)
    requires Inv(c, s, g) && t in s.pc
    requires BatchAt(s.link, s.cls, g.lists, p, t) && PendAt(s.cls, g.lists, p, t) && SeenAt(c, s.cls, s.anchor, p)
      && FillAt(s.cache, p, t)
    ensures BatchesOk(s.link, s.cls, g.lists, s.pc[t := p])
    ensures PendsOk(s.cls, g.lists, s.pc[t := p])
    ensures SeenOk(c, s.cls, s.anchor, s.pc[t := p])
    ensures FillsOk(s.cache, s.pc[t := p])
  {
    hide DomainOk, OwnersOk, UserOk, LinksOk, CachesOk, PartialsOk, StacksOk, SuperblocksOk, PlacesOk, AvailOk;
    hide BatchAt, PendAt, SeenAt, FillAt;
    var pc' := s.pc[t := p];
    assert forall u: nat :: PcOf(pc', u) == if u == t then p else PcOf(s.pc, u);
  }

  /** Everything a step leaves alone when it touches no block, anchor or class. */
  lemma SameBlocks(c: Config, s: State, g: Ghost, s': State, g': Ghost)
    requires Inv(c, s, g)
    requires s' == s.(top := s'.top, availHead := s'.availHead, nextFree := s'.nextFree,
                      partialHead := s'.partialHead, nextPartial := s'.nextPartial, pc := s'.pc)
    requires g' == g.(avail := g'.avail, partial := g'.partial, place := g'.place)
    ensures DomainOk(c, s'.cls, g'.owner) && OwnersOk(g'.owner, g'.lists) && UserOk(s'.user, g'.lists)
    ensures LinksOk(s'.link, g'.lists) && CachesOk(s'.cls, s'.cache, g'.lists)
  {
  }

  /** heap_pop_partial's CAS: the popped descriptor was the head, and the list becomes its tail. */
  lemma PopPartialKeeps(c: Config, s: State, g: Ghost, t: nat) returns (g': Ghost)
    requires Inv(c, s, g) && t in s.pc && s.pc[t].PopCas? && PartialHead(s, s.pc[t].sc) == s.pc[t].was
    ensures
      var sc, was, nx := s.pc[t].sc, s.pc[t].was, s.pc[t].nx;
      && Get(g.partial, sc, []) != [] && was.ptr == Some(Get(g.partial, sc, [])[0])
      && g' == g.(partial := g.partial[sc := Get(g.partial, sc, [])[1..]],
        place := Moved(g.place, {was.ptr.value}, Popped(t)))
      && Inv(c, At(s.(partialHead := s.partialHead[sc := Head(nx, was.cnt)]), t, ResLoad(sc, was.ptr.value)), g')
  {
    var p := s.pc[t];
    var sc, was, nx := p.sc, p.was, p.nx;
    var l := Get(g.partial, sc, []);
    assert Loaded(PartialHead(s, sc), l, was) && LoadedNext(PartialHead(s, sc), s.nextPartial, was, nx) by {
      ThreadFacts(c, s, g, t);
    }
    assert IsList(s.nextPartial, PartialHead(s, sc).ptr, l) by { hide Inv; PartialFacts(c, s, g, sc); }
    PopIsSequential(PartialHead(s, sc), s.nextPartial, l, was, nx) by { hide Inv; }
    var d := l[0];
    assert Holds(g.place, d, InPartial)
      && Holds(s.cls, d, sc) by { hide Inv; PartialFacts(c, s, g, sc); assert d in l; }
    g' := g.(partial := g.partial[sc := l[1..]], place := Moved(g.place, {d}, Popped(t)));
    var s' := At(s.(partialHead := s.partialHead[sc := Head(nx, was.cnt)]), t, ResLoad(sc, d));
    PopPartialParts(c, s, g, t, d);
    assert Inv(c, s', g') by {
      hide DomainOk, OwnersOk, UserOk, LinksOk, CachesOk, BatchesOk, PendsOk, SeenOk, FillsOk, AvailOk, SuperblocksOk,
           PlacesOk, PartialsOk, StacksOk, IsList;
      SameBlocks(c, s, g, s', g');
      StacksAfterPartialPop(s.availHead, s.nextFree, g.avail, s.partialHead, s.nextPartial, g.partial, s.pc, t,
          ResLoad(sc, d), sc, nx);
    }
  }

  lemma PopPartialParts(c: Config, s: State, g: Ghost, t: nat, d: nat)
    requires Inv(c, s, g) && t in s.pc && s.pc[t].PopCas?
    requires var sc, nx, l := s.pc[t].sc, s.pc[t].nx, Get(g.partial, s.pc[t].sc, []);
             l != [] && l[0] == d && l[0] !in l[1..] && IsList(s.nextPartial, nx, l[1..])
    requires Holds(g.place, d, InPartial) && Holds(s.cls, d, s.pc[t].sc)
    ensures
      var sc, place' := s.pc[t].sc, Moved(g.place, {d}, Popped(t));
      var p' := ResLoad(sc, d);
      && PlacesOk(s.top, s.cls, place', s.pc[t := p'])
      && AvailOk(s.availHead, s.nextFree, g.avail, place')
      && SuperblocksOk(c, s.cls, s.anchor, g.lists, place')
      && BatchesOk(s.link, s.cls, g.lists, s.pc[t := p'])
      && PendsOk(s.cls, g.lists, s.pc[t := p'])
      && SeenOk(c, s.cls, s.anchor, s.pc[t := p'])
      && FillsOk(s.cache, s.pc[t := p'])
      && PartialsOk(s.partialHead[sc := Head(s.pc[t].nx, s.pc[t].was.cnt)], s.nextPartial,
        g.partial[sc := Get(g.partial, sc, [])[1..]], place', s.cls)
  {
    hide Inv, IsList;
    var p, p', w := s.pc[t], ResLoad(s.pc[t].sc, d), Popped(t);
    var sc, l := p.sc, Get(g.partial, p.sc, []);
    var place' := Moved(g.place, {d}, w);
    SuperblockFacts(c, s, g, d);
    forall e: nat ensures PlaceAt(place', p', t, e) { PlaceFacts(c, s, g, t, e); }
    DescMoves(c, s, g, t, p', d, w);
    ThreadFacts(c, s, g, t);
    ThreadMoves(c, s, g, t, p');
    var heads, lists := s.partialHead[sc := Head(p.nx, p.was.cnt)], g.partial[sc := l[1..]];
    forall k: nat ensures PartialAt(heads, s.nextPartial, lists, place', s.cls, k) {
      PartialFacts(c, s, g, k);
      assert forall e: nat :: e in l <==> e == d || e in l[1..];
    }
  }

  lemma StacksStay(c: Config, s: State, g: Ghost, t: nat, p: PC)
    requires Inv(c, s, g) && t in s.pc
    requires StackAt(s.availHead, s.nextFree, g.avail, s.partialHead, s.nextPartial, g.partial, p)
    ensures StacksOk(s.availHead, s.nextFree, g.avail, s.partialHead, s.nextPartial, g.partial, s.pc[t := p])
  {
    hide DomainOk, OwnersOk, UserOk, LinksOk, CachesOk, PartialsOk, SuperblocksOk, PlacesOk, AvailOk, BatchesOk,
         PendsOk, SeenOk, FillsOk, StackAt;
    var pc' := s.pc[t := p];
    assert forall u: nat :: PcOf(pc', u) == if u == t then p else PcOf(s.pc, u);
  }

  /** malloc_from_partial meets an empty superblock: only the thread that popped it retires it. */
  lemma FoundEmptyKeeps(c: Config, s: State, g: Ghost, t: nat) returns (g': Ghost)
    requires Inv(c, s, g) && t in s.pc && s.pc[t].ResCas? && s.pc[t].seen.state.Empty?
    ensures g' == g.(place := Moved(g.place, {s.pc[t].d}, Retiring(t)))
    ensures Inv(c, At(s, t, Erase(s.pc[t].d, ThenFill(s.pc[t].sc))), g')
  {
    hide DomainOk, OwnersOk, UserOk, LinksOk, CachesOk, BatchesOk, PendsOk, SeenOk, FillsOk, AvailOk, SuperblocksOk,
         PlacesOk, PartialsOk, StacksOk, IsList;
    g' := g.(place := Moved(g.place, {s.pc[t].d}, Retiring(t)));
    FoundEmptyParts(c, s, g, t, g'.place);
    PartialsUnmoved(s.partialHead, s.nextPartial, g.partial, g.place, s.cls, s.cls, {s.pc[t].d}, Retiring(t));
  }

  lemma FoundEmptyParts(c: Config, s: State, g: Ghost, t: nat, place': map<nat, Place>)
    requires Inv(c, s, g) && t in s.pc && s.pc[t].ResCas? && s.pc[t].seen.state.Empty?
    requires place' == Moved(g.place, {s.pc[t].d}, Retiring(t))
    ensures Holds(g.place, s.pc[t].d, Popped(t))
    ensures
      var p' := Erase(s.pc[t].d, ThenFill(s.pc[t].sc));
      && PlacesOk(s.top, s.cls, place', s.pc[t := p'])
      && AvailOk(s.availHead, s.nextFree, g.avail, place')
      && SuperblocksOk(c, s.cls, s.anchor, g.lists, place')
      && BatchesOk(s.link, s.cls, g.lists, s.pc[t := p']) && PendsOk(s.cls, g.lists, s.pc[t := p'])
      && SeenOk(c, s.cls, s.anchor, s.pc[t := p']) && FillsOk(s.cache, s.pc[t := p'])
      && StacksOk(s.availHead, s.nextFree, g.avail, s.partialHead, s.nextPartial, g.partial, s.pc[t := p'])
  {
    hide Inv, IsList;
    var d, p' := s.pc[t].d, Erase(s.pc[t].d, ThenFill(s.pc[t].sc));
    ThreadFacts(c, s, g, t);
    PlaceFacts(c, s, g, t, d);
    SuperblockFacts(c, s, g, d);
    forall e: nat ensures PlaceAt(place', p', t, e) { PlaceFacts(c, s, g, t, e); }
    DescMoves(c, s, g, t, p', d, Retiring(t));
    ThreadMoves(c, s, g, t, p');
    StacksStay(c, s, g, t, p');
  }

  /** heap_push_partial's CAS puts the descriptor on top of its class's list, where it was not before. */
  lemma PushPartialKeeps(c: Config, s: State, g: Ghost, t: nat) returns (g': Ghost)
    requires Inv(c, s, g) && t in s.pc && s.pc[t].PpCas? && PartialHead(s, s.pc[t].heap) == s.pc[t].was
    ensures
      var p := s.pc[t];
      && p.d !in Get(g.partial, p.heap, [])
      && g' == g.(partial := g.partial[p.heap := [p.d] + Get(g.partial, p.heap, [])],
        place := Moved(g.place, {p.d}, InPartial))
      && Inv(c, At(s.(partialHead := s.partialHead[p.heap := Head(Some(p.d), p.was.cnt + 1)]), t,
        Flush(p.sc, p.pend)), g')
  {
    hide DomainOk, OwnersOk, UserOk, LinksOk, CachesOk, BatchesOk, PendsOk, SeenOk, FillsOk, AvailOk, SuperblocksOk,
         PlacesOk, PartialsOk, StacksOk, IsList;
    var p := s.pc[t];
    var l' := [p.d] + Get(g.partial, p.heap, []);
    g' := g.(partial := g.partial[p.heap := l'], place := Moved(g.place, {p.d}, InPartial));
    PushPartialParts(c, s, g, t, g'.place);
    PushPartialLists(c, s, g, t, g'.place, l');
    StacksAfterPartialPush(s.availHead, s.nextFree, g.avail, s.partialHead, s.nextPartial, g.partial, s.pc, t,
        Flush(p.sc, p.pend), p.heap, p.d, l');
  }

  lemma PushPartialParts(c: Config, s: State, g: Ghost, t: nat, place': map<nat, Place>)
    requires Inv(c, s, g) && t in s.pc && s.pc[t].PpCas? && PartialHead(s, s.pc[t].heap) == s.pc[t].was
    requires place' == Moved(g.place, {s.pc[t].d}, InPartial)
    ensures
      var p := s.pc[t];
      var p' := Flush(p.sc, p.pend);
      && PlacesOk(s.top, s.cls, place', s.pc[t := p'])
      && AvailOk(s.availHead, s.nextFree, g.avail, place')
      && SuperblocksOk(c, s.cls, s.anchor, g.lists, place')
      && BatchesOk(s.link, s.cls, g.lists, s.pc[t := p']) && PendsOk(s.cls, g.lists, s.pc[t := p'])
      && SeenOk(c, s.cls, s.anchor, s.pc[t := p']) && FillsOk(s.cache, s.pc[t := p'])
  {
    hide Inv, IsList;
    var p := s.pc[t];
    var d, p' := p.d, Flush(p.sc, p.pend);
    ThreadFacts(c, s, g, t);
    PlaceFacts(c, s, g, t, d);
    SuperblockFacts(c, s, g, d);
    forall e: nat ensures PlaceAt(place', p', t, e) { PlaceFacts(c, s, g, t, e); }
    DescMoves(c, s, g, t, p', d, InPartial);
    ThreadMoves(c, s, g, t, p');
  }

  lemma PushPartialLists(c: Config, s: State, g: Ghost, t: nat, place': map<nat, Place>, l': seq<nat>)
    requires Inv(c, s, g) && t in s.pc && s.pc[t].PpCas? && PartialHead(s, s.pc[t].heap) == s.pc[t].was
    requires place' == Moved(g.place, {s.pc[t].d}, InPartial)
    requires l' == [s.pc[t].d] + Get(g.partial, s.pc[t].heap, [])
    ensures
      var p := s.pc[t];
      && p.d !in Get(g.partial, p.heap, [])
      && PartialsOk(s.partialHead[p.heap := Head(Some(p.d), p.was.cnt + 1)], s.nextPartial, g.partial[p.heap := l'],
        place', s.cls)
  {
    hide Inv, IsList;
    var p := s.pc[t];
    var d, sc, l := p.d, p.heap, Get(g.partial, p.heap, []);
    ThreadFacts(c, s, g, t);
    PlaceFacts(c, s, g, t, d);
    SuperblockFacts(c, s, g, d);
    PartialFacts(c, s, g, sc);
    PushIsSequential(PartialHead(s, sc), s.nextPartial, l, [d]);
    var heads, lists := s.partialHead[sc := Head(Some(d), p.was.cnt + 1)], g.partial[sc := l'];
    forall k: nat ensures PartialAt(heads, s.nextPartial, lists, place', s.cls, k) {
      PartialFacts(c, s, g, k);
      assert forall e: nat :: e in l' <==> e == d || e in l;
    }
  }

  /** Linking a descriptor in front of the partial list, before the CAS. */
  lemma LinkPartialKeeps(c: Config, s: State, g: Ghost, t: nat)
    requires Inv(c, s, g) && t in s.pc && s.pc[t].PpLink?
    ensures
      var p := s.pc[t];
      Inv(c, At(s.(nextPartial := s.nextPartial[p.d := p.was.ptr]), t, PpCas(p.sc, p.pend, p.d, p.heap, p.was)), g)
  {
    var p := s.pc[t];
    var p' := PpCas(p.sc, p.pend, p.d, p.heap, p.was);
    LinkPartialParts(c, s, g, t);
    hide DomainOk, OwnersOk, UserOk, LinksOk, CachesOk, BatchesOk, PendsOk, SeenOk, FillsOk, AvailOk, SuperblocksOk,
         PlacesOk, PartialsOk, StacksOk, StackAt;
    StacksAfterPartialWrite(s.top, s.cls, g.place, s.availHead, s.nextFree, g.avail, s.partialHead, s.nextPartial,
        g.partial, s.pc, t, p', p.d, p.was.ptr);
  }

  lemma LinkPartialParts(c: Config, s: State, g: Ghost, t: nat)
    requires Inv(c, s, g) && t in s.pc && s.pc[t].PpLink?
    ensures
      var p := s.pc[t];
      var p' := PpCas(p.sc, p.pend, p.d, p.heap, p.was);
      && PlaceAt(g.place, p, t, p.d)
      && PlacesOk(s.top, s.cls, g.place, s.pc[t := p'])
      && BatchesOk(s.link, s.cls, g.lists, s.pc[t := p']) && PendsOk(s.cls, g.lists, s.pc[t := p'])
      && SeenOk(c, s.cls, s.anchor, s.pc[t := p']) && FillsOk(s.cache, s.pc[t := p'])
      && StackAt(s.availHead, s.nextFree, g.avail, s.partialHead, s.nextPartial[p.d := p.was.ptr], g.partial, p')
  {
    hide Inv, PlacesOk, BatchesOk, PendsOk, SeenOk, FillsOk;
    var p := s.pc[t];
    var p' := PpCas(p.sc, p.pend, p.d, p.heap, p.was);
    ThreadFacts(c, s, g, t);
    ThreadMoves(c, s, g, t, p');
    SamePlaces(c, s, g, t, p');
    PlaceFacts(c, s, g, t, p.d);
  }

  lemma SamePlaces(c: Config, s: State, g: Ghost, t: nat, p: PC)
    requires Inv(c, s, g) && t in s.pc && SameHoldings(s.pc[t], p)
    ensures PlacesOk(s.top, s.cls, g.place, s.pc[t := p])
  {
    hide DomainOk, OwnersOk, UserOk, LinksOk, CachesOk, BatchesOk, PendsOk, SeenOk, FillsOk, AvailOk, SuperblocksOk,
         PartialsOk, StacksOk;
    hide OwnsPrivate, OwnsPopped, OwnsPushing, OwnsRetiring, Holds;
    var pc' := s.pc[t := p];
    forall u: nat, d: nat ensures PlaceAt(g.place, PcOf(pc', u), u, d) { assert PlaceAt(g.place, PcOf(s.pc, u), u, d); }
  }

  /** Linking a chain in front of the free-superblock list, before the CAS. */
  lemma LinkChainKeeps(c: Config, s: State, g: Ghost, t: nat)
    requires Inv(c, s, g) && t in s.pc && s.pc[t].ChLink?
    ensures
      var p := s.pc[t];
      Inv(c, At(s.(nextFree := s.nextFree[p.last := p.was.ptr]), t, ChCas(p.first, p.last, p.k, p.was)), g)
  {
    hide DomainOk, OwnersOk, UserOk, LinksOk, CachesOk, BatchesOk, PendsOk, SeenOk, FillsOk, AvailOk, SuperblocksOk,
         PlacesOk, PartialsOk, StacksOk, StackAt;
    var p := s.pc[t];
    var p' := ChCas(p.first, p.last, p.k, p.was);
    LinkChainParts(c, s, g, t, p');
    StacksAfterFreeWrite(s.top, s.cls, g.place, s.availHead, s.nextFree, g.avail, s.partialHead, s.nextPartial,
        g.partial, s.pc, t, p', p.last, p.was.ptr);
  }

  lemma LinkChainParts(c: Config, s: State, g: Ghost, t: nat, p': PC)
    requires Inv(c, s, g) && t in s.pc && s.pc[t].ChLink?
      && p' == ChCas(s.pc[t].first, s.pc[t].last, s.pc[t].k, s.pc[t].was)
    ensures
      var p := s.pc[t];
      && Holds(g.place, p.last, Private(t))
      && PlacesOk(s.top, s.cls, g.place, s.pc[t := p'])
      && BatchesOk(s.link, s.cls, g.lists, s.pc[t := p']) && PendsOk(s.cls, g.lists, s.pc[t := p'])
      && SeenOk(c, s.cls, s.anchor, s.pc[t := p']) && FillsOk(s.cache, s.pc[t := p'])
      && StackAt(s.availHead, s.nextFree[p.last := p.was.ptr], g.avail, s.partialHead, s.nextPartial, g.partial, p')
  {
    hide Inv;
    ThreadFacts(c, s, g, t);
    PlaceFacts(c, s, g, t, s.pc[t].last);
    ThreadMoves(c, s, g, t, p');
    SamePlaces(c, s, g, t, p');
  }

  lemma AvailFacts(c: Config, s: State, g: Ghost)
    requires Inv(c, s, g)
    ensures AvailOk(s.availHead, s.nextFree, g.avail, g.place)
  {
    hide AvailOk;
  }

  /** small_sb_alloc's CAS: the superblock handed out was on top of the free list. */
  lemma PopAvailKeeps(c: Config, s: State, g: Ghost, t: nat) returns (g': Ghost)
    requires Inv(c, s, g) && t in s.pc && s.pc[t].SbCas? && s.availHead == s.pc[t].was
    ensures
      var was := s.pc[t].was;
      && g.avail != [] && was.ptr == Some(g.avail[0])
      && g' == g.(avail := g.avail[1..], place := Moved(g.place, {was.ptr.value}, Private(t)))
      && Inv(c, At(s.(availHead := Head(s.pc[t].nx, was.cnt)), t, InitSb(s.pc[t].sc, was.ptr.value)), g')
  {
    hide DomainOk, OwnersOk, UserOk, LinksOk, CachesOk, BatchesOk, PendsOk, SeenOk, FillsOk, AvailOk, SuperblocksOk,
         PlacesOk, PartialsOk, StacksOk, IsList;
    PopAvailParts(c, s, g, t);
    var d := g.avail[0];
    g' := g.(avail := g.avail[1..], place := Moved(g.place, {d}, Private(t)));
    PartialsUnmoved(s.partialHead, s.nextPartial, g.partial, g.place, s.cls, s.cls, {d}, Private(t));
    SuperblocksMoved(c, s.cls, s.cls, s.anchor, s.anchor, g.lists, g.lists, g.place, {d}, Private(t));
    PlacesMoved(s.top, s.cls, s.cls, g.place, s.pc, t, InitSb(s.pc[t].sc, d), {d}, Private(t));
    StacksAfterAvailPop(s.availHead, s.nextFree, g.avail, s.partialHead, s.nextPartial, g.partial, s.pc, t,
        InitSb(s.pc[t].sc, d), s.pc[t].nx);
  }

  lemma PopAvailParts(c: Config, s: State, g: Ghost, t: nat)
    requires Inv(c, s, g) && t in s.pc && s.pc[t].SbCas? && s.availHead == s.pc[t].was
    ensures g.avail != [] && s.pc[t].was.ptr == Some(g.avail[0])
    ensures
      var d := g.avail[0];
      var p', place' := InitSb(s.pc[t].sc, d), Moved(g.place, {d}, Private(t));
      && Holds(g.place, d, Avail) && d !in s.cls
      && SuperblockAt(c, s.cls, s.anchor, g.lists, place', d)
      && (forall e: nat :: PlaceAt(place', p', t, e))
      && IsList(s.nextFree, s.availHead.ptr, g.avail) && IsList(s.nextFree, s.pc[t].nx, g.avail[1..])
      && AvailOk(Head(s.pc[t].nx, s.availHead.cnt), s.nextFree, g.avail[1..], place')
      && BatchesOk(s.link, s.cls, g.lists, s.pc[t := p']) && PendsOk(s.cls, g.lists, s.pc[t := p'])
      && SeenOk(c, s.cls, s.anchor, s.pc[t := p']) && FillsOk(s.cache, s.pc[t := p'])
  {
    hide Inv, IsList;
    ThreadFacts(c, s, g, t);
    AvailFacts(c, s, g);
    PopIsSequential(s.availHead, s.nextFree, g.avail, s.pc[t].was, s.pc[t].nx);
    var d := g.avail[0];
    assert d in g.avail;
    var p', place' := InitSb(s.pc[t].sc, d), Moved(g.place, {d}, Private(t));
    PlaceFacts(c, s, g, t, d);
    SuperblockFacts(c, s, g, d);
    forall e: nat ensures PlaceAt(place', p', t, e) { PlaceFacts(c, s, g, t, e); }
    ThreadMoves(c, s, g, t, p');
    assert forall e: nat :: e in g.avail <==> e == d || e in g.avail[1..];
    assert NoDup(g.avail[1..]);
  }

  /** The CAS of organize_sb_list and small_sb_retire: a private chain goes on top of the free list. */
  lemma PushChainKeeps(c: Config, s: State, g: Ghost, t: nat) returns (g': Ghost)
    requires Inv(c, s, g) && t in s.pc && s.pc[t].ChCas? && s.availHead == s.pc[t].was
    ensures
      var p := s.pc[t];
      && p.first <= p.last && (forall d :: d in Range(p.first, p.last) ==> d !in g.avail)
      && g' == g.(avail := Range(p.first, p.last) + g.avail, place := Moved(g.place, Span(p.first, p.last), Avail))
      && Inv(c, At(s.(availHead := Head(Some(p.first), p.was.cnt + 1)), t, Resume(p.k)), g')
  {
    hide DomainOk, OwnersOk, UserOk, LinksOk, CachesOk, BatchesOk, PendsOk, SeenOk, FillsOk, AvailOk, SuperblocksOk,
         PlacesOk, PartialsOk, StacksOk, IsList;
    hide Range, PlaceAt, SuperblockAt, Resume;
    var p := s.pc[t];
    PushChainParts(c, s, g, t);
    var ds, p' := Span(p.first, p.last), Resume(p.k);
    g' := g.(avail := Range(p.first, p.last) + g.avail, place := Moved(g.place, ds, Avail));
    AvailAfterPush(s.availHead, s.nextFree, g.avail, g.place, p.first, p.last);
    PartialsUnmoved(s.partialHead, s.nextPartial, g.partial, g.place, s.cls, s.cls, ds, Avail);
    SuperblocksMoved(c, s.cls, s.cls, s.anchor, s.anchor, g.lists, g.lists, g.place, ds, Avail);
    PlacesMoved(s.top, s.cls, s.cls, g.place, s.pc, t, p', ds, Avail);
    StacksAfterAvailPush(s.availHead, s.nextFree, g.avail, s.partialHead, s.nextPartial, g.partial, s.pc, t, p',
        p.first, g'.avail);
  }

  lemma PushChainParts(c: Config, s: State, g: Ghost, t: nat)
    requires Inv(c, s, g) && t in s.pc && s.pc[t].ChCas? && s.availHead == s.pc[t].was
    ensures s.pc[t].first <= s.pc[t].last
    ensures
      var p := s.pc[t];
      var ds := Span(p.first, p.last);
      var p', place' := Resume(p.k), Moved(g.place, ds, Avail);
      && (p'.InitSb? || p'.Fill? || p'.Flush?)
      && (forall d: nat :: d in ds ==>
        Holds(g.place, d, Private(t)) && d !in s.cls && SuperblockAt(c, s.cls, s.anchor, g.lists, place', d))
      && (forall e: nat :: PlaceAt(place', p', t, e))
      && (forall d: nat :: p.first <= d < p.last ==> Get(s.nextFree, d, None) == FreshNext(p.last, d))
      && Holds(s.nextFree, p.last, s.availHead.ptr)
      && BatchesOk(s.link, s.cls, g.lists, s.pc[t := p']) && PendsOk(s.cls, g.lists, s.pc[t := p'])
      && SeenOk(c, s.cls, s.anchor, s.pc[t := p']) && FillsOk(s.cache, s.pc[t := p'])
  {
    hide Inv, IsList, Range;
    var p := s.pc[t];
    ThreadFacts(c, s, g, t);
    var ds := Span(p.first, p.last);
    var p', place' := Resume(p.k), Moved(g.place, ds, Avail);
    forall d: nat | d in ds
      ensures Holds(g.place, d, Private(t)) && d !in s.cls && SuperblockAt(c, s.cls, s.anchor, g.lists, place', d)
    {
      PlaceFacts(c, s, g, t, d);
      SuperblockFacts(c, s, g, d);
    }
    forall e: nat ensures PlaceAt(place', p', t, e) { PlaceFacts(c, s, g, t, e); }
    ThreadMoves(c, s, g, t, p');
  }

  /** small_sb_alloc carves out a new region: its superblocks are the thread's own. */
  lemma GrowKeepsInv(c: Config, s: State, g: Ghost, t: nat) returns (g': Ghost)
    requires Inv(c, s, g) && t in s.pc && s.pc[t].GrowCas? && s.top == s.pc[t].base
    ensures
      var sc, lo, hi := s.pc[t].sc, s.top + 1, s.top + c.expand - 1;
      && g' == g.(place := Grown(g.place, s.top, c.expand, t))
      && Inv(c, At(s.(top := s.top + c.expand, nextFree := s.nextFree + FreshChain(lo, hi)), t,
        ChLoad(lo, hi, ThenInit(sc, s.top))), g')
  {
    hide DomainOk, OwnersOk, UserOk, LinksOk, CachesOk, BatchesOk, PendsOk, SeenOk, FillsOk, AvailOk, SuperblocksOk,
         PlacesOk, PartialsOk, StacksOk, IsList;
    hide Grown;
    var p' := ChLoad(s.top + 1, s.top + c.expand - 1, ThenInit(s.pc[t].sc, s.top));
    g' := g.(place := Grown(g.place, s.top, c.expand, t));
    GrowParts(c, s, g, t, p');
    PlacesGrown(s.top, s.cls, g.place, s.pc, t, p', c.expand);
    SuperblocksGrown(c, s.top, s.cls, s.anchor, g.lists, g.place, t, c.expand);
    PartialsGrown(s.partialHead, s.nextPartial, g.partial, g.place, s.cls, s.top, t, c.expand);
    AvailGrown(s.top, s.cls, g.place, s.availHead, s.nextFree, g.avail, s.partialHead, s.nextPartial, g.partial, s.pc,
        t, p', c.expand);
  }

  lemma GrowParts(c: Config, s: State, g: Ghost, t: nat, p': PC)
    requires Inv(c, s, g) && t in s.pc && s.pc[t].GrowCas? && c.expand >= 2
    requires p' == ChLoad(s.top + 1, s.top + c.expand - 1, ThenInit(s.pc[t].sc, s.top))
    ensures forall d: nat :: PlaceAt(Grown(g.place, s.top, c.expand, t), p', t, d)
    ensures (forall d: nat :: d in g.place <==> d < s.top) && (forall d: nat :: d in s.cls ==> d < s.top)
    ensures StackAt(s.availHead, s.nextFree
      + FreshChain(s.top + 1, s.top + c.expand - 1), g.avail, s.partialHead, s.nextPartial, g.partial, p')
    ensures BatchesOk(s.link, s.cls, g.lists, s.pc[t := p']) && PendsOk(s.cls, g.lists, s.pc[t := p'])
    ensures SeenOk(c, s.cls, s.anchor, s.pc[t := p']) && FillsOk(s.cache, s.pc[t := p'])
  {
    hide Inv;
    ThreadFacts(c, s, g, t);
    forall d: nat
      ensures PlaceAt(Grown(g.place, s.top, c.expand, t), p', t, d) && (d in g.place <==> d < s.top)
        && (d in s.cls ==> d < s.top)
    {
      PlaceFacts(c, s, g, t, d);
    }
    ThreadMoves(c, s, g, t, p');
  }
}
