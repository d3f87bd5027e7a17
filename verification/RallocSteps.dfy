/** Every step of the Ralloc machine keeps the invariant. */
module RallocSteps {
  import opened Common
  import opened CountedStack
  import opened RallocMachine
  import opened RallocInvariant
  import opened RallocFrames

  /** The thread-local conjuncts for one thread. */
  ghost predicate ThreadOk(c: Config, s: State, g: Ghost, t: nat, p: PC) {
    && BatchAt(s.link, s.cls, g.lists, p, t)
    && PendAt(s.cls, g.lists, p, t)
    && SeenAt(c, s.cls, s.anchor, p)
    && StackAt(s.availHead, s.nextFree, g.avail, s.partialHead, s.nextPartial, g.partial, p)
    && FillAt(s.cache, p, t)
  }

  ghost predicate SameHoldings(p: PC, q: PC) {
    && (forall d: nat :: OwnsPrivate(p, d) == OwnsPrivate(q, d))
    && (forall d: nat :: OwnsPopped(p, d) == OwnsPopped(q, d))
    && (forall d: nat :: OwnsPushing(p, d) == OwnsPushing(q, d))
    && (forall d: nat :: OwnsRetiring(p, d) == OwnsRetiring(q, d))
  }

  /** A step that only moves one program counter. */
  lemma Stay(c: Config, s: State, g: Ghost, t: nat, p: PC)
    requires Inv(c, s, g) && t in s.pc && SameHoldings(s.pc[t], p)
    requires ThreadOk(c, s, g, t, p)
    ensures Inv(c, At(s, t, p), g)
  {
    hide DomainOk, OwnersOk, UserOk, LinksOk, CachesOk, SuperblocksOk, AvailOk, PartialsOk, BatchAt, PendAt, SeenAt,
         StackAt, FillAt;
    hide OwnsPrivate, OwnsPopped, OwnsPushing, OwnsRetiring, Holds;
    var pc' := s.pc[t := p];
    assert forall u: nat :: PcOf(pc', u) == if u == t then p else PcOf(s.pc, u);
    forall u: nat, d: nat ensures PlaceAt(g.place, PcOf(pc', u), u, d) { assert PlaceAt(g.place, PcOf(s.pc, u), u, d); }
    assert PlacesOk(s.top, s.cls, g.place, pc');
    assert BatchesOk(s.link, s.cls, g.lists, pc');
    assert PendsOk(s.cls, g.lists, pc');
    assert SeenOk(c, s.cls, s.anchor, pc');
    assert StacksOk(s.availHead, s.nextFree, g.avail, s.partialHead, s.nextPartial, g.partial, pc');
    assert FillsOk(s.cache, pc');
  }

  /** The invariant as it bears on one thread. */
  lemma ThreadFacts(c: Config, s: State, g: Ghost, t: nat)
    requires Inv(c, s, g) && t in s.pc
    ensures ThreadOk(c, s, g, t, s.pc[t])
  {
    hide DomainOk, OwnersOk, UserOk, LinksOk, CachesOk, SuperblocksOk, AvailOk, PartialsOk, PlacesOk;
    hide BatchAt, PendAt, SeenAt, StackAt, FillAt;
    assert PcOf(s.pc, t) == s.pc[t];
  }

  lemma PartialFacts(c: Config, s: State, g: Ghost, sc: nat)
    requires Inv(c, s, g)
    ensures PartialAt(s.partialHead, s.nextPartial, g.partial, g.place, s.cls, sc)
  {
    hide PartialAt;
  }

  lemma SuperblockFacts(c: Config, s: State, g: Ghost, d: nat)
    requires Inv(c, s, g)
    ensures SuperblockAt(c, s.cls, s.anchor, g.lists, g.place, d)
  {
    hide SuperblockAt;
  }

  lemma PlaceFacts(c: Config, s: State, g: Ghost, t: nat, d: nat)
    requires Inv(c, s, g) && t in s.pc
    ensures PlaceAt(g.place, s.pc[t], t, d)
    ensures d in g.place <==> d < s.top
    ensures d in s.cls <==> d in g.place && InUse(g.place[d])
  {
    hide PlaceAt;
    assert PlaceAt(g.place, PcOf(s.pc, t), t, d);
  }

  /** Blocks of one superblock held by different owners fit in it together. */
  lemma BlocksFit(c: Config, cls: map<nat, nat>, owner: map<Loc, Owner>, l: seq<Loc>, d: nat)
    requires DomainOk(c, cls, owner) && NoDup(l)
    requires forall b :: b in l ==> b.sb == d && b in owner
    ensures |l| <= MaxOf(c, cls, d)
  {
    var idx := seq(|l|, i requires 0 <= i < |l| => l[i].idx);
    forall i, j | 0 <= i < j < |idx| ensures idx[i] != idx[j] {
      assert l[i] in l && l[j] in l && l[i] != l[j];
    }
    forall x | x in idx ensures x < MaxOf(c, cls, d) {
      var i :| 0 <= i < |idx| && idx[i] == x;
      assert l[i] in l;
    }
    Pigeonhole(idx, MaxOf(c, cls, d));
  }

  /** While a thread holds a batch of superblock d, d is neither empty nor over-full. */
  lemma BatchFits(c: Config, s: State, g: Ghost, t: nat)
    requires Inv(c, s, g) && t in s.pc && Flushing(s.pc[t])
    ensures
      var d, n := s.pc[t].run.head.sb, s.pc[t].run.len;
      && d in s.cls && d in s.anchor && AnchorOf(s, d) == s.anchor[d]
      && |ListOf(g.lists, InFree(d))| + n <= MaxOf(c, s.cls, d)
      && (s.anchor[d].state.Full? || s.anchor[d].state.Partial?)
      && s.anchor[d].count == |ListOf(g.lists, InFree(d))|
  {
    var p := s.pc[t];
    var d := p.run.head.sb;
    ThreadFacts(c, s, g, t);
    assert BatchAt(s.link, s.cls, g.lists, p, t);
    SuperblockFacts(c, s, g, d);
    var batch, free := ListOf(g.lists, InBatch(t)), ListOf(g.lists, InFree(d));
    DisjointLists(g.owner, g.lists, InBatch(t), InFree(d));
    forall b: Loc | b in batch + free ensures b.sb == d && b in g.owner {
      assert Lists(g.owner, batch, InBatch(t)) && Lists(g.owner, free, InFree(d));
      if b in batch { assert Holds(g.owner, b, InBatch(t)); } else { assert Holds(g.owner, b, InFree(d)); }
    }
    BlocksFit(c, s.cls, g.owner, batch + free, d);
  }

  // ---- steps that only move a program counter ----

  lemma SawPartialKeeps(c: Config, s: State, g: Ghost, t: nat, sc: nat)
    requires Inv(c, s, g) && t in s.pc && (s.pc[t].Fill? || s.pc[t].PopCas?) && s.pc[t].sc == sc
    ensures Inv(c, At(s, t, SawPartial(sc, PartialHead(s, sc))), g)
  {
    hide Inv;
    ThreadFacts(c, s, g, t);
    Stay(c, s, g, t, SawPartial(sc, PartialHead(s, sc)));
  }

  lemma SawAvailKeeps(c: Config, s: State, g: Ghost, t: nat, sc: nat)
    requires Inv(c, s, g) && t in s.pc && (s.pc[t].SbLoad? || s.pc[t].SbCas?) && s.pc[t].sc == sc
    ensures Inv(c, At(s, t, SawAvail(sc, s.availHead)), g)
  {
    hide Inv;
    ThreadFacts(c, s, g, t);
    Stay(c, s, g, t, SawAvail(sc, s.availHead));
  }

  /** Loading the next pointer of a stack head that may have moved on. */
  lemma NextKeeps(c: Config, s: State, g: Ghost, t: nat, p: PC)
    requires Inv(c, s, g) && t in s.pc
    requires
      || (s.pc[t].PopNext? && s.pc[t].was.ptr.Some?
          && p == PopCas(s.pc[t].sc, s.pc[t].was, Get(s.nextPartial, s.pc[t].was.ptr.value, None)))
      || (s.pc[t].SbNext? && s.pc[t].was.ptr.Some?
          && p == SbCas(s.pc[t].sc, s.pc[t].was, Get(s.nextFree, s.pc[t].was.ptr.value, None)))
    ensures Inv(c, At(s, t, p), g)
  {
    hide Inv;
    ThreadFacts(c, s, g, t);
    Stay(c, s, g, t, p);
  }

  lemma GrowKeeps(c: Config, s: State, g: Ghost, t: nat, p: PC)
    requires Inv(c, s, g) && t in s.pc
    requires s.pc[t].GrowLoad? || s.pc[t].GrowCheck? || s.pc[t].GrowCas?
    requires (p.GrowLoad? || p.GrowCheck? || p.GrowCas?) && p.sc == s.pc[t].sc
    ensures Inv(c, At(s, t, p), g)
  {
    hide Inv;
    ThreadFacts(c, s, g, t);
    Stay(c, s, g, t, p);
  }

  /** Loading the anchor of a superblock taken from the partial list: partial or already empty, never full. */
  lemma ReserveLoadKeeps(c: Config, s: State, g: Ghost, t: nat, sc: nat, d: nat)
    requires Inv(c, s, g) && t in s.pc && (s.pc[t].ResLoad? || s.pc[t].ResCas?) && s.pc[t].sc == sc && s.pc[t].d == d
    ensures Inv(c, At(s, t, ResCas(sc, d, AnchorOf(s, d))), g)
    ensures AnchorOf(s, d).state.Partial? || AnchorOf(s, d).state.Empty?
  {
    hide Inv;
    ThreadFacts(c, s, g, t);
    PlaceFacts(c, s, g, t, d);
    SuperblockFacts(c, s, g, d);
    Stay(c, s, g, t, ResCas(sc, d, AnchorOf(s, d)));
  }

  lemma FlushLoadKeeps(c: Config, s: State, g: Ghost, t: nat)
    requires Inv(c, s, g) && t in s.pc && (s.pc[t].FlLoad? || s.pc[t].FlCas?)
    ensures Inv(c, At(s, t, FlLink(s.pc[t].sc, s.pc[t].pend, s.pc[t].run, AnchorOf(s, s.pc[t].run.head.sb))), g)
  {
    hide Inv;
    var p := s.pc[t];
    BatchFits(c, s, g, t);
    ThreadFacts(c, s, g, t);
    var d := p.run.head.sb;
    SuperblockFacts(c, s, g, d);
    Stay(c, s, g, t, FlLink(p.sc, p.pend, p.run, AnchorOf(s, d)));
  }

  lemma PushLoadKeeps(c: Config, s: State, g: Ghost, t: nat)
    requires Inv(c, s, g) && t in s.pc && (s.pc[t].PpLoad? || s.pc[t].PpCas?)
    ensures
      var p := s.pc[t];
      Get(s.cls, p.d, 0) == p.sc && (p.PpCas? ==> p.heap == p.sc)
      && Inv(c, At(s, t, PpLink(p.sc, p.pend, p.d, p.sc, PartialHead(s, p.sc))), g)
  {
    hide Inv;
    var p := s.pc[t];
    ThreadFacts(c, s, g, t);
    PlaceFacts(c, s, g, t, p.d);
    PartialFacts(c, s, g, p.sc);
    assert PartialHead(s, p.sc).ptr == PtrAt(Get(g.partial, p.sc, []), 0);
    Stay(c, s, g, t, PpLink(p.sc, p.pend, p.d, p.sc, PartialHead(s, p.sc)));
  }

  lemma ChainLoadKeeps(c: Config, s: State, g: Ghost, t: nat)
    requires Inv(c, s, g) && t in s.pc && (s.pc[t].ChLoad? || s.pc[t].ChCas?)
    ensures Inv(c, At(s, t, ChLink(s.pc[t].first, s.pc[t].last, s.pc[t].k, s.availHead)), g)
  {
    hide Inv;
    var p := s.pc[t];
    ThreadFacts(c, s, g, t);
    Stay(c, s, g, t, ChLink(p.first, p.last, p.k, s.availHead));
  }

  lemma EntryKeeps(c: Config, s: State, g: Ghost, t: nat, sc: nat, p: PC)
    requires Inv(c, s, g) && t in s.pc && s.pc[t].Idle? && sc in c.maxcount
    requires p == Flush(sc, None) || p == if CacheOf(s, t, sc).num == 0 then Fill(sc) else TakeBlock(sc)
    ensures Inv(c, At(s, t, p), g)
  {
    hide Inv;
    ThreadFacts(c, s, g, t);
    Stay(c, s, g, t, p);
  }
}
