/**
 * The inductive invariant of the Ralloc machine.  A Ghost value witnesses it: which blocks and
 * descriptors belong to whom, and what the intrusive lists in memory spell out.
 */
module RallocInvariant {
  import opened Common
  import opened CountedStack
  import opened RallocMachine

  /** Where a superblock's descriptor is. */
  datatype Place =
    | Skipped
    | Avail
    | Floating
    | InPartial
    | Private(t: nat)
    | Popped(t: nat)
    | Pushing(t: nat)
    | Retiring(t: nat)

  /** Who has a block of a superblock in use. */
  datatype Owner = User | InCache(t: nat, sc: nat) | InBatch(t: nat) | Pending(t: nat) | InFree(d: nat)

  /** lists spells out, for each owner, the blocks it has, in list order where memory links them. */
  datatype Ghost = Ghost(
    avail: seq<nat>, partial: map<nat, seq<nat>>, place: map<nat, Place>,
    owner: map<Loc, Owner>, lists: map<Owner, seq<Loc>>)

  predicate Holds<K(==), V(==)>(m: map<K, V>, k: K, v: V) { k in m && m[k] == v }

  /** l lists, once each, exactly the keys that m maps to v. */
  ghost predicate Lists<K(!new), V>(m: map<K, V>, l: seq<K>, v: V) {
    NoDup(l) && forall k :: k in l <==> Holds(m, k, v)
  }

  /** The word of each block in l but the last points at the next one. */
  predicate Chained(link: map<Loc, Loc>, l: seq<Loc>) {
    forall i :: 0 <= i < |l| - 1 ==> Word(link, l[i]) == l[i + 1]
  }

  predicate StartsAt(l: seq<Loc>, head: Loc) { l != [] ==> l[0] == head }

  function ListOf(lists: map<Owner, seq<Loc>>, o: Owner): seq<Loc> { Get(lists, o, []) }

  // ---- what a program counter says about ownership ----

  predicate ContPrivate(k: Cont, d: nat) { k.ThenInit? && k.d == d }

  predicate OwnsPrivate(p: PC, d: nat) {
    match p
    case InitSb(_, e) => e == d
    case Erase(_, k) => ContPrivate(k, d)
    case ChLoad(first, last, k) => first <= d <= last || ContPrivate(k, d)
    case ChLink(first, last, k, _) => first <= d <= last || ContPrivate(k, d)
    case ChCas(first, last, k, _) => first <= d <= last || ContPrivate(k, d)
    case _ => false
  }

  predicate OwnsPopped(p: PC, d: nat) { (p.ResLoad? || p.ResCas?) && p.d == d }

  predicate OwnsPushing(p: PC, d: nat) { (p.PpLoad? || p.PpLink? || p.PpCas?) && p.d == d }

  predicate OwnsRetiring(p: PC, d: nat) { p.Erase? && p.d == d }

  function ContPend(k: Cont): Option<Loc> { if k.ThenFlush? then k.pend else None }

  function PendOf(p: PC): Option<Loc> {
    match p
    case Flush(_, pend) => pend
    case FlLoad(_, pend, _) => pend
    case FlLink(_, pend, _, _) => pend
    case FlCas(_, pend, _, _) => pend
    case PpLoad(_, pend, _) => pend
    case PpLink(_, pend, _, _, _) => pend
    case PpCas(_, pend, _, _, _) => pend
    case Erase(_, k) => ContPend(k)
    case ChLoad(_, _, k) => ContPend(k)
    case ChLink(_, _, k, _) => ContPend(k)
    case ChCas(_, _, k, _) => ContPend(k)
    case _ => None
  }

  /** The size class a thread is working for. */
  function ClassOf(p: PC): Option<nat> {
    match p
    case Idle => None
    case Erase(_, k) => Some(k.sc)
    case ChLoad(_, _, k) => Some(k.sc)
    case ChLink(_, _, k, _) => Some(k.sc)
    case ChCas(_, _, k, _) => Some(k.sc)
    case _ => Some(p.sc)
  }

  /** The thread has a descriptor it popped or is about to push. */
  predicate HasDesc(p: PC) { p.ResLoad? || p.ResCas? || p.PpLoad? || p.PpLink? || p.PpCas? }

  predicate SawEmpty(p: PC) { p.ResCas? && p.seen.state.Empty? }

  predicate Flushing(p: PC) { p.FlLoad? || p.FlLink? || p.FlCas? }

  /** The points inside fill_cache, where the thread's cache is empty. */
  predicate Filling(p: PC) {
    match p
    case Fill(_) => true
    case PopNext(_, _) => true
    case PopCas(_, _, _) => true
    case ResLoad(_, _) => true
    case ResCas(_, _, _) => true
    case SbLoad(_) => true
    case SbNext(_, _) => true
    case SbCas(_, _, _) => true
    case GrowLoad(_) => true
    case GrowCheck(_, _) => true
    case GrowCas(_, _) => true
    case InitSb(_, _) => true
    case Erase(_, k) => !k.ThenFlush?
    case ChLoad(_, _, k) => !k.ThenFlush?
    case ChLink(_, _, k, _) => !k.ThenFlush?
    case ChCas(_, _, k, _) => !k.ThenFlush?
    case _ => false
  }

  function PcOf(pc: map<nat, PC>, t: nat): PC { Get(pc, t, Idle) }

  // ---- the conjuncts ----

  /** Exactly the blocks of the superblocks in use have an owner. */
  ghost predicate DomainOk(c: Config, cls: map<nat, nat>, owner: map<Loc, Owner>) {
    && (forall d: nat :: d in cls ==> cls[d] in c.maxcount)
    && (forall b :: b in owner <==> b.sb in cls && b.idx < MaxOf(c, cls, b.sb))
  }

  /** The owner map and the lists agree. */
  ghost predicate OwnersOk(owner: map<Loc, Owner>, lists: map<Owner, seq<Loc>>) {
    forall o :: Lists(owner, ListOf(lists, o), o)
  }

  ghost predicate UserOk(user: set<Loc>, lists: map<Owner, seq<Loc>>) {
    forall b :: b in user <==> b in ListOf(lists, User)
  }

  /** Every list but the user's is linked in memory. */
  ghost predicate LinksOk(link: map<Loc, Loc>, lists: map<Owner, seq<Loc>>) {
    forall o :: o != User ==> Chained(link, ListOf(lists, o))
  }

  ghost predicate CacheAt(cls: map<nat, nat>, cache: map<(nat, nat), Cache>, lists: map<Owner, seq<Loc>>, t: nat,
        sc: nat) {
    var q, l := Get(cache, (t, sc), NO_CACHE), ListOf(lists, InCache(t, sc));
    && q.num == |l| && StartsAt(l, q.head)
    && forall b :: b in l ==> Holds(cls, b.sb, sc)
  }

  ghost predicate CachesOk(cls: map<nat, nat>, cache: map<(nat, nat), Cache>, lists: map<Owner, seq<Loc>>) {
    forall t: nat, sc: nat :: CacheAt(cls, cache, lists, t, sc)
  }

  /** The anchor of a superblock in use describes its free list and fits the descriptor's place. */
  ghost predicate AnchorOk(m: nat, a: Anchor, l: seq<Loc>, w: Place, d: nat) {
    && StartsAt(l, Loc(d, a.avail))
    && (forall b :: b in l ==> b.sb == d)
    && match a.state
       case Error => false
       case Full => a.count == 0 && l == [] && w.Floating?
       case Partial => 1 <= a.count < m && |l| == a.count && (w.InPartial? || w.Popped? || w.Pushing?)
       case Empty => a.count == m - 1 && |l| == m && (w.InPartial? || w.Popped? || w.Pushing? || w.Retiring?)
  }

  ghost predicate SuperblockAt(c: Config, cls: map<nat, nat>, anchor: map<nat, Anchor>, lists: map<Owner, seq<Loc>>,
        place: map<nat, Place>, d: nat)
  {
    && (d in cls ==>
      d in anchor && d in place && AnchorOk(MaxOf(c, cls, d), anchor[d], ListOf(lists, InFree(d)), place[d], d))
    && (d !in cls ==> ListOf(lists, InFree(d)) == [])
    && (d in place && (place[d].Floating? || place[d].Retiring?) ==>
          d in cls && d in anchor && (if place[d].Floating? then anchor[d].state.Full? else anchor[d].state.Empty?))
  }

  ghost predicate SuperblocksOk(c: Config, cls: map<nat, nat>, anchor: map<nat, Anchor>, lists: map<Owner, seq<Loc>>,
        place: map<nat, Place>)
  {
    forall d: nat :: SuperblockAt(c, cls, anchor, lists, place, d)
  }

  predicate InUse(w: Place) { w.Floating? || w.InPartial? || w.Popped? || w.Pushing? || w.Retiring? }

  ghost predicate PlaceAt(place: map<nat, Place>, p: PC, t: nat, d: nat) {
    && (Holds(place, d, Private(t)) <==> OwnsPrivate(p, d))
    && (Holds(place, d, Popped(t)) <==> OwnsPopped(p, d))
    && (Holds(place, d, Pushing(t)) <==> OwnsPushing(p, d))
    && (Holds(place, d, Retiring(t)) <==> OwnsRetiring(p, d))
  }

  ghost predicate PlacesOk(top: nat, cls: map<nat, nat>, place: map<nat, Place>, pc: map<nat, PC>) {
    && (forall d: nat :: d in place <==> d < top)
    && (forall d: nat :: d in cls <==> d in place && InUse(place[d]))
    && (forall t: nat, d: nat :: PlaceAt(place, PcOf(pc, t), t, d))
  }

  ghost predicate AvailOk(availHead: Head, nextFree: map<nat, Option<nat>>, avail: seq<nat>, place: map<nat, Place>) {
    IsList(nextFree, availHead.ptr, avail) && Lists(place, avail, Avail)
  }

  ghost predicate PartialAt(partialHead: map<nat, Head>, nextPartial: map<nat, Option<nat>>,
        partial: map<nat, seq<nat>>, place: map<nat, Place>, cls: map<nat, nat>, sc: nat)
  {
    var l := Get(partial, sc, []);
    && IsList(nextPartial, Get(partialHead, sc, NULL_HEAD).ptr, l)
    && forall d: nat :: d in l <==> Holds(place, d, InPartial) && Holds(cls, d, sc)
  }

  ghost predicate PartialsOk(partialHead: map<nat, Head>, nextPartial: map<nat, Option<nat>>,
        partial: map<nat, seq<nat>>, place: map<nat, Place>, cls: map<nat, nat>)
  {
    forall sc: nat :: PartialAt(partialHead, nextPartial, partial, place, cls, sc)
  }

  /** The batch a thread is flushing: one superblock's blocks, and at the CAS already linked on. */
  ghost predicate BatchAt(link: map<Loc, Loc>, cls: map<nat, nat>, lists: map<Owner, seq<Loc>>, p: PC, t: nat) {
    var l := ListOf(lists, InBatch(t));
    && (!Flushing(p) ==> l == [])
    && (Flushing(p) ==>
          && Holds(cls, p.run.head.sb, p.sc)
          && |l| == p.run.len >= 1 && l[0] == p.run.head && l[|l| - 1] == p.run.tail
          && forall b :: b in l ==> b.sb == p.run.head.sb)
    && (p.FlCas? ==> Word(link, p.run.tail) == Loc(p.run.head.sb, p.seen.avail))
  }

  ghost predicate BatchesOk(link: map<Loc, Loc>, cls: map<nat, nat>, lists: map<Owner, seq<Loc>>, pc: map<nat, PC>) {
    forall t: nat :: BatchAt(link, cls, lists, PcOf(pc, t), t)
  }

  /** The block a do_free still has to cache belongs to the freeing thread. */
  ghost predicate PendAt(cls: map<nat, nat>, lists: map<Owner, seq<Loc>>, p: PC, t: nat) {
    && ListOf(lists, Pending(t)) == (if PendOf(p).Some? then [PendOf(p).value] else [])
    && (PendOf(p).Some? ==> ClassOf(p).Some? && Holds(cls, PendOf(p).value.sb, ClassOf(p).value))
  }

  ghost predicate PendsOk(cls: map<nat, nat>, lists: map<Owner, seq<Loc>>, pc: map<nat, PC>) {
    forall t: nat :: PendAt(cls, lists, PcOf(pc, t), t)
  }

  /** What a loaded anchor, stale or not, still guarantees; and the classes threads work with. */
  ghost predicate SeenAt(c: Config, cls: map<nat, nat>, anchor: map<nat, Anchor>, p: PC) {
    && (ClassOf(p).Some? ==> ClassOf(p).value in c.maxcount)
    && (p.FlLink? || p.FlCas? ==>
          && (p.seen.state.Full? || p.seen.state.Partial?)
          && (p.seen.state.Full? ==> p.seen.count == 0)
          && p.seen.count + p.run.len <= MaxOf(c, cls, p.run.head.sb))
    && (HasDesc(p) ==> Holds(cls, p.d, p.sc))
    && (p.PpLink? || p.PpCas? ==> p.heap == p.sc)
    && (p.ResCas? ==>
          && (p.seen.state.Empty? || p.seen.state.Partial?)
          && (p.seen.state.Partial? ==> 1 <= p.seen.count < MaxOf(c, cls, p.d))
          && (p.seen.state.Empty? ==> Holds(anchor, p.d, p.seen)))
  }

  ghost predicate SeenOk(c: Config, cls: map<nat, nat>, anchor: map<nat, Anchor>, pc: map<nat, PC>) {
    forall t: nat :: SeenAt(c, cls, anchor, PcOf(pc, t))
  }

  /** Threads in the middle of a pop, and threads in the middle of a push. */
  ghost predicate StackAt(availHead: Head, nextFree: map<nat, Option<nat>>, avail: seq<nat>,
        partialHead: map<nat, Head>, nextPartial: map<nat, Option<nat>>, partial: map<nat, seq<nat>>, p: PC)
  {
    && (p.SbNext? || p.SbCas? ==> Loaded(availHead, avail, p.was))
    && (p.SbCas? ==> LoadedNext(availHead, nextFree, p.was, p.nx))
    && (p.PopNext? || p.PopCas? ==> Loaded(Get(partialHead, p.sc, NULL_HEAD), Get(partial, p.sc, []), p.was))
    && (p.PopCas? ==> LoadedNext(Get(partialHead, p.sc, NULL_HEAD), nextPartial, p.was, p.nx))
    && (p.PpLink? || p.PpCas? ==> p.was.ptr != Some(p.d))
    && (p.PpCas? ==> Holds(nextPartial, p.d, p.was.ptr))
    && (p.ChLoad? || p.ChLink? || p.ChCas? ==>
          && p.first <= p.last
          && (forall d: nat :: p.first <= d < p.last ==> Get(nextFree, d, None) == FreshNext(p.last, d))
          && (p.k.ThenInit? ==> !(p.first <= p.k.d <= p.last)))
    && (p.ChCas? ==> Holds(nextFree, p.last, p.was.ptr))
    && (p.Erase? ==> !p.k.ThenInit?)
  }

  ghost predicate StacksOk(availHead: Head, nextFree: map<nat, Option<nat>>, avail: seq<nat>,
        partialHead: map<nat, Head>, nextPartial: map<nat, Option<nat>>, partial: map<nat, seq<nat>>, pc: map<nat, PC>)
  {
    forall t: nat :: StackAt(availHead, nextFree, avail, partialHead, nextPartial, partial, PcOf(pc, t))
  }

  ghost predicate FillAt(cache: map<(nat, nat), Cache>, p: PC, t: nat) {
    && (Filling(p) ==> Get(cache, (t, ClassOf(p).value), NO_CACHE).num == 0)
    && (p.TakeBlock? ==> Get(cache, (t, p.sc), NO_CACHE).num > 0)
  }

  ghost predicate FillsOk(cache: map<(nat, nat), Cache>, pc: map<nat, PC>) {
    forall t: nat :: FillAt(cache, PcOf(pc, t), t)
  }

  ghost predicate Inv(c: Config, s: State, g: Ghost) {
    && c.Valid()
    && DomainOk(c, s.cls, g.owner)
    && OwnersOk(g.owner, g.lists)
    && UserOk(s.user, g.lists)
    && LinksOk(s.link, g.lists)
    && CachesOk(s.cls, s.cache, g.lists)
    && SuperblocksOk(c, s.cls, s.anchor, g.lists, g.place)
    && PlacesOk(s.top, s.cls, g.place, s.pc)
    && AvailOk(s.availHead, s.nextFree, g.avail, g.place)
    && PartialsOk(s.partialHead, s.nextPartial, g.partial, g.place, s.cls)
    && BatchesOk(s.link, s.cls, g.lists, s.pc)
    && PendsOk(s.cls, g.lists, s.pc)
    && SeenOk(c, s.cls, s.anchor, s.pc)
    && StacksOk(s.availHead, s.nextFree, g.avail, s.partialHead, s.nextPartial, g.partial, s.pc)
    && FillsOk(s.cache, s.pc)
  }
}
