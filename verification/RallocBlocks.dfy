/** The steps that move blocks between the user, the caches, the batches and the free lists keep the invariant. */
module RallocBlocks {
  import opened Common
  import opened CountedStack
  import opened RallocMachine
  import opened RallocInvariant
  import opened RallocFrames
  import opened RallocSteps
  import opened RallocDescs

  lemma OwnerFacts(c: Config, s: State, g: Ghost, o: Owner)
    requires Inv(c, s, g)
    ensures OwnersOk(g.owner, g.lists) && Lists(g.owner, ListOf(g.lists, o), o) && NoDup(ListOf(g.lists, o))
    ensures o != User ==> Chained(s.link, ListOf(g.lists, o))
  {
    hide DomainOk, UserOk, CachesOk, BatchesOk, PendsOk, SeenOk, FillsOk, AvailOk, SuperblocksOk, PlacesOk, PartialsOk,
         StacksOk, ListOf, Chained;
  }

  lemma UserFacts(c: Config, s: State, g: Ghost, b: Loc)
    requires Inv(c, s, g)
    ensures b in s.user <==> b in ListOf(g.lists, User)
  {
    hide DomainOk, OwnersOk, LinksOk, CachesOk, BatchesOk, PendsOk, SeenOk, FillsOk, AvailOk, SuperblocksOk, PlacesOk,
         PartialsOk, StacksOk, ListOf;
  }

  lemma CacheFacts(c: Config, s: State, g: Ghost, t: nat, sc: nat)
    requires Inv(c, s, g)
    ensures CacheAt(s.cls, s.cache, g.lists, t, sc)
  {
    hide CacheAt;
  }

  /** The conjuncts untouched by a step that moves no descriptor. */
  lemma SameDescs(c: Config, s: State, g: Ghost, t: nat, p: PC)
    requires Inv(c, s, g) && t in s.pc && SameHoldings(s.pc[t], p)
    requires StackAt(s.availHead, s.nextFree, g.avail, s.partialHead, s.nextPartial, g.partial, p)
      && SeenAt(c, s.cls, s.anchor, p)
    ensures PlacesOk(s.top, s.cls, g.place, s.pc[t := p])
    ensures StacksOk(s.availHead, s.nextFree, g.avail, s.partialHead, s.nextPartial, g.partial, s.pc[t := p])
    ensures SeenOk(c, s.cls, s.anchor, s.pc[t := p])
  {
    hide DomainOk, OwnersOk, UserOk, LinksOk, CachesOk, BatchesOk, PendsOk, FillsOk, AvailOk, SuperblocksOk, PlacesOk,
         PartialsOk, StackAt, SeenAt;
    SamePlaces(c, s, g, t, p);
    StacksStay(c, s, g, t, p);
    var pc' := s.pc[t := p];
    assert forall u: nat :: PcOf(pc', u) == if u == t then p else PcOf(s.pc, u);
  }

  /** Only lists of thread t, of its cache for class sc and of the user have changed. */
  ghost predicate OthersSame(lists: map<Owner, seq<Loc>>, lists': map<Owner, seq<Loc>>, t: nat, sc: nat) {
    && (forall u: nat, k: nat :: u != t || k != sc ==> ListOf(lists', InCache(u, k)) == ListOf(lists, InCache(u, k)))
    && (forall d: nat :: ListOf(lists', InFree(d)) == ListOf(lists, InFree(d)))
    && (forall u: nat :: u != t ==> ListOf(lists', InBatch(u)) == ListOf(lists, InBatch(u)))
    && (forall u: nat :: u != t ==> ListOf(lists', Pending(u)) == ListOf(lists, Pending(u)))
  }

  predicate Own(o: Owner, t: nat, sc: nat) { o == InCache(t, sc) || o == User || o == Pending(t) || o == InBatch(t) }

  lemma OwnMoves(lists: map<Owner, seq<Loc>>, t: nat, sc: nat, from: Owner, rest: seq<Loc>, to: Owner, to': seq<Loc>)
    requires Own(from, t, sc) && Own(to, t, sc) && from != to
    ensures var lists' := lists[from := rest][to := to'];
      && OthersSame(lists, lists', t, sc) && ListOf(lists', from) == rest && ListOf(lists', to) == to'
      && (User !in {from, to} ==> ListOf(lists', User) == ListOf(lists, User))
      && (Pending(t) !in {from, to} ==> ListOf(lists', Pending(t)) == ListOf(lists, Pending(t)))
      && (InBatch(t) !in {from, to} ==> ListOf(lists', InBatch(t)) == ListOf(lists, InBatch(t)))
  {
  }

  lemma ListFacts(c: Config, s: State, g: Ghost)
    requires Inv(c, s, g)
    ensures DomainOk(c, s.cls, g.owner) && OwnersOk(g.owner, g.lists) && UserOk(s.user, g.lists)
      && LinksOk(s.link, g.lists)
  {
    hide DomainOk, OwnersOk, UserOk, LinksOk;
  }

  /** What a thread may do with its cache and its own lists. */
  lemma CacheMoves(c: Config, s: State, g: Ghost, g': Ghost, user': set<Loc>, t: nat, sc: nat, q: Cache, p: PC)
    requires Inv(c, s, g) && t in s.pc && g' == g.(owner := g'.owner, lists := g'.lists)
    requires DomainOk(c, s.cls, g'.owner) && OwnersOk(g'.owner, g'.lists) && LinksOk(s.link, g'.lists)
    requires UserOk(user', g'.lists) && OthersSame(g.lists, g'.lists, t, sc)
    requires
      var l := ListOf(g'.lists, InCache(t, sc));
      q.num == |l| && StartsAt(l, q.head) && forall b :: b in l ==> Holds(s.cls, b.sb, sc)
    requires SameHoldings(s.pc[t], p) && SeenAt(c, s.cls, s.anchor, p)
    requires StackAt(s.availHead, s.nextFree, g.avail, s.partialHead, s.nextPartial, g.partial, p)
    requires BatchAt(s.link, s.cls, g'.lists, p, t) && PendAt(s.cls, g'.lists, p, t)
    requires FillAt(s.cache[(t, sc) := q], p, t)
    ensures Inv(c, At(WithCache(s.(user := user'), t, sc, q), t, p), g')
  {
    hide DomainOk, OwnersOk, UserOk, LinksOk, CachesOk, BatchesOk, PendsOk, SeenOk, FillsOk, AvailOk, SuperblocksOk,
         PlacesOk, PartialsOk, StacksOk, BatchAt, PendAt, FillAt, SeenAt, StackAt, SameHoldings, StartsAt;
    CacheChanged(s.cls, s.cls, s.cache, g.lists, g'.lists, t, sc, q);
    SuperblocksListed(c, s.cls, s.anchor, g.lists, g'.lists, g.place);
    SameDescs(c, s, g, t, p);
    BatchesChanged(s.link, s.link, s.cls, s.cls, g.lists, g'.lists, s.pc, t, p);
    PendsChanged(s.cls, s.cls, g.lists, g'.lists, s.pc, t, p);
    FillsChanged(s.cache, s.cache[(t, sc) := q], s.pc, t, p);
  }

  /** do_malloc pops a block from the thread's cache: it was nobody else's, and now it is the user's. */
  lemma TakeBlockKeeps(c: Config, s: State, g: Ghost, t: nat) returns (g': Ghost)
    requires Inv(c, s, g) && t in s.pc && s.pc[t].TakeBlock?
    ensures CacheOf(s, t, s.pc[t].sc).num > 0
    ensures
      var q := CacheOf(s, t, s.pc[t].sc);
      && q.head !in s.user && Holds(g.owner, q.head, InCache(t, s.pc[t].sc))
      && g'.avail == g.avail && g'.partial == g.partial && g'.place == g.place
      && Inv(c, At(WithCache(s.(user := s.user + {q.head}), t, s.pc[t].sc, Cache(Word(s.link, q.head), q.num - 1)), t,
        Idle), g')
  {
    hide Inv, DomainOk, OwnersOk, UserOk, LinksOk, OthersSame, ListOf, Reowned, Word, Chained, NoDup;
    ListFacts(c, s, g);
    var sc := s.pc[t].sc;
    var q, l, u := CacheOf(s, t, sc), ListOf(g.lists, InCache(t, sc)), ListOf(g.lists, User);
    TakeBlockParts(c, s, g, t);
    var rest, u' := l[1..], [q.head] + u;
    g' := g.(owner := Reowned(g.owner, [q.head], User), lists := g.lists[InCache(t, sc) := rest][User := u']);
    HandOver(g.owner, g.lists, [q.head], InCache(t, sc), rest, User, u');
    OwnMoves(g.lists, t, sc, InCache(t, sc), rest, User, u');
    DomainReowned(c, s.cls, g.owner, [q.head], User);
    LinksHandedOver(s.link, g.lists, InCache(t, sc), rest, User, u');
    assert UserOk(s.user + {q.head}, g'.lists) by { TakeUser(s.user, g.lists, g'.lists, q.head); }
    CacheMoves(c, s, g, g', s.user + {q.head}, t, sc, Cache(Word(s.link, q.head), q.num - 1), Idle);
  }

  lemma TakeUser(user: set<Loc>, lists: map<Owner, seq<Loc>>, lists': map<Owner, seq<Loc>>, b: Loc)
    requires UserOk(user, lists) && ListOf(lists', User) == [b] + ListOf(lists, User)
    ensures UserOk(user + {b}, lists')
  {
  }

  lemma TakeBlockParts(c: Config, s: State, g: Ghost, t: nat)
    requires Inv(c, s, g) && t in s.pc && s.pc[t].TakeBlock?
    ensures
      var sc := s.pc[t].sc;
      var q, l, u := CacheOf(s, t, sc), ListOf(g.lists, InCache(t, sc)), ListOf(g.lists, User);
      && q.num > 0 && q.num == |l| && l[0] == q.head && StartsAt(l[1..], Word(s.link, q.head))
        && Chained(s.link, l[1..])
      && NoDup(l[1..]) && NoDup([q.head] + u) && q.head !in l[1..] && q.head !in u
      && (forall b :: b in l <==> b == q.head || b in l[1..])
      && (forall b :: b in l ==> Holds(s.cls, b.sb, sc))
      && Holds(g.owner, q.head, InCache(t, sc))
      && q.head !in s.user
      && ListOf(g.lists, InBatch(t)) == [] && ListOf(g.lists, Pending(t)) == []
  {
    hide Inv;
    var sc := s.pc[t].sc;
    var q, l, u := CacheOf(s, t, sc), ListOf(g.lists, InCache(t, sc)), ListOf(g.lists, User);
    ThreadFacts(c, s, g, t);
    CacheFacts(c, s, g, t, sc);
    OwnerFacts(c, s, g, InCache(t, sc));
    OwnerFacts(c, s, g, User);
    DisjointLists(g.owner, g.lists, InCache(t, sc), User);
    UserFacts(c, s, g, q.head);
    assert l[0] in l;
    ChainedSplit(s.link, l, 1);
  }

  /** A sequence without one of its elements. */
  lemma RemoveOne(l: seq<Loc>, b: Loc) returns (rest: seq<Loc>)
    requires NoDup(l) && b in l
    ensures |rest| == |l| - 1 && NoDup(rest) && b !in rest && forall x :: x in l <==> x == b || x in rest
  {
    var i :| 0 <= i < |l| && l[i] == b;
    rest := l[..i] + l[i + 1..];
    assert l == l[..i] + [b] + l[i + 1..];
    assert forall j :: 0 <= j < |rest| ==> rest[j] == if j < i then l[j] else l[j + 1];
  }

  /** A block that nobody but its holder links can be written over. */
  lemma WriteKeeps(c: Config, s: State, g: Ghost, o: Owner, b: Loc, v: Loc)
    requires Inv(c, s, g) && b in ListOf(g.lists, o) && (o == User || (o.Pending? && ListOf(g.lists, o) == [b]))
    ensures Inv(c, s.(link := s.link[b := v]), g)
  {
    hide DomainOk, OwnersOk, UserOk, LinksOk, CachesOk, BatchesOk, PendsOk, SeenOk, FillsOk, AvailOk, SuperblocksOk,
         PlacesOk, PartialsOk, StacksOk;
    LinksAfterWrite(g.owner, s.link, g.lists, o, b, v);
    BatchesAfterWrite(g.owner, s.link, s.cls, g.lists, s.pc, o, b, v);
  }

  /** The user scribbles over a block it holds. */
  lemma UserWriteKeeps(c: Config, s: State, g: Ghost, b: Loc, v: Loc)
    requires Inv(c, s, g) && b in s.user
    ensures Inv(c, s.(link := s.link[b := v]), g)
  {
    hide Inv;
    UserFacts(c, s, g, b);
    WriteKeeps(c, s, g, User, b, v);
  }

  /** The blocks from which a cached block can come, and the point the thread is at. */
  ghost predicate CanPush(s: State, t: nat, sc: nat, b: Loc, from: Owner) {
    && t in s.pc && Holds(s.cls, b.sb, sc)
    && ((from == User && b in s.user && s.pc[t].Idle?) || (from == Pending(t) && s.pc[t] == Flush(sc, Some(b))))
  }

  /** do_free puts the block on the thread's cache. */
  lemma PushBlockKeeps(c: Config, s: State, g: Ghost, t: nat, sc: nat, b: Loc, from: Owner) returns (g': Ghost)
    requires Inv(c, s, g) && CanPush(s, t, sc, b, from)
    ensures g'.avail == g.avail && g'.partial == g.partial && g'.place == g.place
    ensures Inv(c, At(PushBlock(s.(user := s.user - {b}), t, sc, b), t, Idle), g')
  {
    hide Inv;
    var head := CacheOf(s, t, sc).head;
    PushBlockParts(c, s, g, t, sc, b, from);
    WriteKeeps(c, s, g, from, b, head);
    g' := PushLinkedKeeps(c, s.(link := s.link[b := head]), g, t, sc, b, from);
  }

  lemma PushLinkedKeeps(c: Config, s: State, g: Ghost, t: nat, sc: nat, b: Loc, from: Owner) returns (g': Ghost)
    requires Inv(c, s, g) && CanPush(s, t, sc, b, from)
    requires Word(s.link, b) == CacheOf(s, t, sc).head
    ensures g'.avail == g.avail && g'.partial == g.partial && g'.place == g.place
    ensures Inv(c, At(WithCache(s.(user := s.user - {b}), t, sc, Cache(b, CacheOf(s, t, sc).num + 1)), t, Idle), g')
  {
    hide Inv, DomainOk, OwnersOk, UserOk, LinksOk, OthersSame, ListOf, Reowned, Word, Chained, NoDup, CanPush;
    ListFacts(c, s, g);
    var q', l := Cache(b, CacheOf(s, t, sc).num + 1), ListOf(g.lists, InCache(t, sc));
    PushBlockParts(c, s, g, t, sc, b, from);
    var rest := RemoveOne(ListOf(g.lists, from), b);
    var l' := [b] + l;
    g' := g.(owner := Reowned(g.owner, [b], InCache(t, sc)), lists := g.lists[from := rest][InCache(t, sc) := l']);
    HandOver(g.owner, g.lists, [b], from, rest, InCache(t, sc), l');
    OwnMoves(g.lists, t, sc, from, rest, InCache(t, sc), l');
    DomainReowned(c, s.cls, g.owner, [b], InCache(t, sc));
    EmptyChained(s.link);
    LinksHandedOver(s.link, g.lists, from, rest, InCache(t, sc), l');
    GiveUser(c, s, g, g'.lists, from, rest, b);
    CacheMoves(c, s, g, g', s.user - {b}, t, sc, q', Idle);
  }

  lemma EmptyChained(link: map<Loc, Loc>)
    ensures Chained(link, [])
  {
  }

  lemma GiveUser(c: Config, s: State, g: Ghost, lists': map<Owner, seq<Loc>>, from: Owner, rest: seq<Loc>, b: Loc)
    requires Inv(c, s, g) && b in ListOf(g.lists, from)
    requires forall x :: x in ListOf(g.lists, from) <==> x == b || x in rest
    requires b !in rest && ListOf(lists', User) == if from == User then rest else ListOf(g.lists, User)
    ensures UserOk(s.user - {b}, lists')
  {
    hide Inv;
    OwnerFacts(c, s, g, User);
    if from != User { DisjointLists(g.owner, g.lists, from, User); }
    forall x ensures x in s.user - {b} <==> x in ListOf(lists', User) { UserFacts(c, s, g, x); }
  }

  lemma PushBlockParts(c: Config, s: State, g: Ghost, t: nat, sc: nat, b: Loc, from: Owner)
    requires Inv(c, s, g) && CanPush(s, t, sc, b, from)
    ensures
      var q, l := CacheOf(s, t, sc), ListOf(g.lists, InCache(t, sc));
      && t in s.pc && b in ListOf(g.lists, from) && NoDup(ListOf(g.lists, from)) && NoDup([b] + l)
      && (from != User ==> ListOf(g.lists, from) == [b])
      && q.num == |l| && (Word(s.link, b) == q.head ==> Chained(s.link, [b] + l)) && Holds(s.cls, b.sb, sc)
      && from != InCache(t, sc) && (from == User || from == Pending(t))
      && (forall x :: x in l ==> Holds(s.cls, x.sb, sc))
      && ListOf(g.lists, InBatch(t)) == [] && ListOf(g.lists, Pending(t)) == (if from == User then [] else [b])
      && SameHoldings(s.pc[t], Idle)
  {
    hide Inv;
    var q, l := CacheOf(s, t, sc), ListOf(g.lists, InCache(t, sc));
    ThreadFacts(c, s, g, t);
    CacheFacts(c, s, g, t, sc);
    OwnerFacts(c, s, g, InCache(t, sc));
    OwnerFacts(c, s, g, from);
    UserFacts(c, s, g, b);
    DisjointLists(g.owner, g.lists, from, InCache(t, sc));
    assert b !in l;
    if Word(s.link, b) == q.head { ChainedConcat(s.link, [b], l); }
  }

  /** do_free with a full cache: the block waits in the thread's hands while the cache is flushed. */
  lemma FreeFlushKeeps(c: Config, s: State, g: Ghost, t: nat, b: Loc) returns (g': Ghost)
    requires Inv(c, s, g) && t in s.pc && s.pc[t].Idle? && b in s.user
    ensures b.sb in s.cls && g'.avail == g.avail && g'.partial == g.partial && g'.place == g.place
    ensures Inv(c, At(s.(user := s.user - {b}), t, Flush(Get(s.cls, b.sb, 0), Some(b))), g')
  {
    hide DomainOk, OwnersOk, UserOk, LinksOk, CachesOk, BatchesOk, PendsOk, SeenOk, FillsOk, AvailOk, SuperblocksOk,
         PlacesOk, PartialsOk, StacksOk;
    hide Reowned, Word, Chained, NoDup;
    FreeFlushParts(c, s, g, t, b);
    var p' := Flush(Get(s.cls, b.sb, 0), Some(b));
    var rest := RemoveOne(ListOf(g.lists, User), b);
    g' := g.(owner := Reowned(g.owner, [b], Pending(t)), lists := g.lists[User := rest][Pending(t) := [b]]);
    HandOver(g.owner, g.lists, [b], User, rest, Pending(t), [b]);
    DomainReowned(c, s.cls, g.owner, [b], Pending(t));
    LinksHandedOver(s.link, g.lists, User, rest, Pending(t), [b]);
    GiveUser(c, s, g, g'.lists, User, rest, b);
    CachesUntouched(s.cls, s.cls, s.cache, g.lists, g'.lists);
    SuperblocksListed(c, s.cls, s.anchor, g.lists, g'.lists, g.place);
    SameDescs(c, s, g, t, p');
    BatchesChanged(s.link, s.link, s.cls, s.cls, g.lists, g'.lists, s.pc, t, p');
    PendsChanged(s.cls, s.cls, g.lists, g'.lists, s.pc, t, p');
    FillsChanged(s.cache, s.cache, s.pc, t, p');
  }

  lemma FreeFlushParts(c: Config, s: State, g: Ghost, t: nat, b: Loc)
    requires Inv(c, s, g) && t in s.pc && s.pc[t].Idle? && b in s.user
    ensures
      var p' := Flush(Get(s.cls, b.sb, 0), Some(b));
      && b.sb in s.cls && s.cls[b.sb] in c.maxcount
      && b in ListOf(g.lists, User) && NoDup(ListOf(g.lists, User)) && NoDup([b]) && Chained(s.link, [b])
      && ListOf(g.lists, InBatch(t)) == [] && ListOf(g.lists, Pending(t)) == []
      && SameHoldings(s.pc[t], p') && SeenAt(c, s.cls, s.anchor, p')
  {
    ThreadFacts(c, s, g, t) by { hide Inv; }
    OwnerFacts(c, s, g, User) by { hide Inv; }
    UserFacts(c, s, g, b) by { hide Inv; }
    assert Holds(g.owner, b, User);
    hide OwnersOk, LinksOk, CachesOk, BatchesOk, PendsOk, SeenOk, FillsOk, AvailOk, SuperblocksOk, PlacesOk,
         PartialsOk, StacksOk;
  }

  /** The run flush_cache cuts off: the longest front of the cache that lies in one superblock, or shorter. */
  lemma {:induction false} RunSpec(link: map<Loc, Loc>, l: seq<Loc>, k: nat, sb: nat)
    requires Chained(link, l) && k < |l|
    ensures
      var (tail, n) := RunFrom(link, l[k], sb, |l| - 1 - k);
      && k + n < |l| && tail == l[k + n]
      && (forall i :: k < i <= k + n ==> l[i].sb == sb)
      && (k + n + 1 < |l| ==> l[k + n + 1].sb != sb)
    decreases |l| - k
  {
    if k + 1 < |l| && Word(link, l[k]).sb == sb {
      assert Word(link, l[k]) == l[k + 1];
      RunSpec(link, l, k + 1, sb);
    }
  }

  /** flush_cache cuts a batch off the front of the cache. */
  lemma CutBatchKeeps(c: Config, s: State, g: Ghost, t: nat) returns (g': Ghost)
    requires Inv(c, s, g) && t in s.pc && s.pc[t].Flush? && CacheOf(s, t, s.pc[t].sc).num > 0
    ensures g'.avail == g.avail && g'.partial == g.partial && g'.place == g.place
    ensures
      var sc, pend := s.pc[t].sc, s.pc[t].pend;
      var q := CacheOf(s, t, sc);
      var (tail, n) := RunFrom(s.link, q.head, q.head.sb, q.num - 1);
      && n + 1 <= q.num
      && Inv(c, At(WithCache(s, t, sc, Cache(Word(s.link, tail), q.num - (n + 1))), t,
        FlLoad(sc, pend, Batch(q.head, tail, n + 1))), g')
  {
    hide Inv, DomainOk, OwnersOk, UserOk, LinksOk, OthersSame, ListOf, Reowned, Word, Chained, NoDup, RunFrom;
    ListFacts(c, s, g);
    var sc, pend := s.pc[t].sc, s.pc[t].pend;
    var q, l := CacheOf(s, t, sc), ListOf(g.lists, InCache(t, sc));
    var (tail, n) := RunFrom(s.link, q.head, q.head.sb, q.num - 1);
    CutBatchParts(c, s, g, t, tail, n);
    var q', p' := Cache(Word(s.link, tail), q.num - (n + 1)), FlLoad(sc, pend, Batch(q.head, tail, n + 1));
    var cut, rest := l[..n + 1], l[n + 1..];
    g' := g.(owner := Reowned(g.owner, cut, InBatch(t)), lists := g.lists[InCache(t, sc) := rest][InBatch(t) := cut]);
    HandOver(g.owner, g.lists, cut, InCache(t, sc), rest, InBatch(t), cut);
    OwnMoves(g.lists, t, sc, InCache(t, sc), rest, InBatch(t), cut);
    DomainReowned(c, s.cls, g.owner, cut, InBatch(t));
    LinksHandedOver(s.link, g.lists, InCache(t, sc), rest, InBatch(t), cut);
    assert UserOk(s.user, g'.lists) by { SameUser(s.user, g.lists, g'.lists); }
    CacheMoves(c, s, g, g', s.user, t, sc, q', p');
  }

  lemma SameUser(user: set<Loc>, lists: map<Owner, seq<Loc>>, lists': map<Owner, seq<Loc>>)
    requires UserOk(user, lists) && ListOf(lists', User) == ListOf(lists, User)
    ensures UserOk(user, lists')
  {
  }

  lemma CutBatchParts(c: Config, s: State, g: Ghost, t: nat, tail: Loc, n: nat)
    requires Inv(c, s, g) && t in s.pc && s.pc[t].Flush? && CacheOf(s, t, s.pc[t].sc).num > 0
    requires var q := CacheOf(s, t, s.pc[t].sc); (tail, n) == RunFrom(s.link, q.head, q.head.sb, q.num - 1)
    ensures
      var sc, pend := s.pc[t].sc, s.pc[t].pend;
      var q, l := CacheOf(s, t, sc), ListOf(g.lists, InCache(t, sc));
      var p' := FlLoad(sc, pend, Batch(q.head, tail, n + 1));
      && n + 1 <= q.num == |l|
      && var cut, rest := l[..n + 1], l[n + 1..];
      && cut[0] == q.head && cut[n] == tail && (forall b :: b in cut ==> b.sb == q.head.sb)
        && Holds(s.cls, q.head.sb, sc)
      && StartsAt(rest, Word(s.link, tail)) && Chained(s.link, cut) && Chained(s.link, rest) && NoDup(cut)
        && NoDup(rest)
      && (forall b :: b in l <==> b in cut || b in rest) && (forall b :: b in cut ==> b !in rest)
      && (forall b :: b in l ==> Holds(s.cls, b.sb, sc))
      && ListOf(g.lists, InBatch(t)) == []
      && ListOf(g.lists, Pending(t)) == (if pend.Some? then [pend.value] else [])
        && (pend.Some? ==> Holds(s.cls, pend.value.sb, sc))
      && SameHoldings(s.pc[t], p') && SeenAt(c, s.cls, s.anchor, p')
  {
    hide Inv, RunFrom, Chained, NoDup, Word;
    var sc := s.pc[t].sc;
    var q, l := CacheOf(s, t, sc), ListOf(g.lists, InCache(t, sc));
    ThreadFacts(c, s, g, t);
    CacheFacts(c, s, g, t, sc);
    OwnerFacts(c, s, g, InCache(t, sc));
    CutFacts(s.link, l, tail, n);
    assert l[0] in l;
  }

  lemma CutFacts(link: map<Loc, Loc>, l: seq<Loc>, tail: Loc, n: nat)
    requires Chained(link, l) && NoDup(l) && l != [] && (tail, n) == RunFrom(link, l[0], l[0].sb, |l| - 1)
    ensures n + 1 <= |l|
    ensures
      var cut, rest := l[..n + 1], l[n + 1..];
      && cut[0] == l[0] && cut[n] == tail && (forall b :: b in cut ==> b.sb == l[0].sb)
      && StartsAt(rest, Word(link, tail)) && Chained(link, cut) && Chained(link, rest) && NoDup(cut) && NoDup(rest)
      && (forall b :: b in l <==> b in cut || b in rest) && (forall b :: b in cut ==> b !in rest)
  {
    hide RunFrom, Word;
    RunSpec(link, l, 0, l[0].sb);
    var cut, rest := l[..n + 1], l[n + 1..];
    assert l == cut + rest;
    SplitNoDup(cut, rest);
    ChainedSplit(link, l, n + 1);
  }

  /** flush_cache links the batch in front of the superblock's free list, before the CAS. */
  lemma LinkBatchKeeps(c: Config, s: State, g: Ghost, t: nat)
    requires Inv(c, s, g) && t in s.pc && s.pc[t].FlLink?
    ensures
      var p := s.pc[t];
      Inv(c, At(s.(link := s.link[p.run.tail := Loc(p.run.head.sb, p.seen.avail)]), t,
        FlCas(p.sc, p.pend, p.run, p.seen)), g)
  {
    hide DomainOk, OwnersOk, UserOk, LinksOk, CachesOk, BatchesOk, PendsOk, SeenOk, FillsOk, AvailOk, SuperblocksOk,
         PlacesOk, PartialsOk, StacksOk;
    hide Word, Chained, NoDup;
    var p := s.pc[t];
    var p', v := FlCas(p.sc, p.pend, p.run, p.seen), Loc(p.run.head.sb, p.seen.avail);
    var link' := s.link[p.run.tail := v];
    LinkBatchParts(c, s, g, t, p', link');
    LinksAfterWrite(g.owner, s.link, g.lists, InBatch(t), p.run.tail, v);
    SameDescs(c, s, g, t, p');
    PendsChanged(s.cls, s.cls, g.lists, g.lists, s.pc, t, p');
    FillsChanged(s.cache, s.cache, s.pc, t, p');
    BatchesChanged(s.link, link', s.cls, s.cls, g.lists, g.lists, s.pc, t, p');
  }

  lemma LinkBatchParts(c: Config, s: State, g: Ghost, t: nat, p': PC, link': map<Loc, Loc>)
    requires Inv(c, s, g) && t in s.pc && s.pc[t].FlLink?
      && p' == FlCas(s.pc[t].sc, s.pc[t].pend, s.pc[t].run, s.pc[t].seen)
    requires link' == s.link[s.pc[t].run.tail := Loc(s.pc[t].run.head.sb, s.pc[t].seen.avail)]
    ensures
      var p, l := s.pc[t], ListOf(g.lists, InBatch(t));
      && p.run.tail in l && p.run.tail == l[|l| - 1]
      && SameHoldings(p, p') && SeenAt(c, s.cls, s.anchor, p') && PendAt(s.cls, g.lists, p', t)
        && FillAt(s.cache, p', t)
      && BatchAt(link', s.cls, g.lists, p', t)
      && StackAt(s.availHead, s.nextFree, g.avail, s.partialHead, s.nextPartial, g.partial, p')
    ensures forall u: nat :: u != t && Flushing(PcOf(s.pc, u)) ==>
              var q := PcOf(s.pc, u);
              Holds(s.cls, q.run.head.sb, q.sc) && Word(link', q.run.tail) == Word(s.link, q.run.tail)
  {
    hide Inv;
    var p, l := s.pc[t], ListOf(g.lists, InBatch(t));
    ThreadFacts(c, s, g, t);
    forall u: nat | u != t && Flushing(PcOf(s.pc, u))
      ensures
        var q := PcOf(s.pc, u);
        Holds(s.cls, q.run.head.sb, q.sc) && Word(link', q.run.tail) == Word(s.link, q.run.tail)
    {
      ThreadFacts(c, s, g, u);
      OwnerFacts(c, s, g, InBatch(t));
      DisjointLists(g.owner, g.lists, InBatch(t), InBatch(u));
      assert PcOf(s.pc, u).run.tail in ListOf(g.lists, InBatch(u));
    }
  }
}
