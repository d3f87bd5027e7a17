/** How each conjunct of the Ralloc invariant survives the changes the steps make. */
module RallocFrames {
  import opened Common
  import opened CountedStack
  import opened RallocMachine
  import opened RallocInvariant

  // ---- moving descriptors ----

  function Moved(place: map<nat, Place>, ds: set<nat>, w: Place): map<nat, Place> {
    map d | d in place :: if d in ds then w else place[d]
  }

  /** The thread a place belongs to, if any. */
  predicate HeldBy(w: Place, t: nat) { (w.Private? || w.Popped? || w.Pushing? || w.Retiring?) && w.t == t }

  predicate Shared(w: Place) { w.Skipped? || w.Avail? || w.Floating? || w.InPartial? }

  lemma PlacesMoved(top: nat, cls: map<nat, nat>, cls': map<nat, nat>, place: map<nat, Place>, pc: map<nat, PC>,
        t: nat, p: PC, ds: set<nat>, w: Place)
    requires PlacesOk(top, cls, place, pc)
    requires forall d: nat :: d in ds ==> d in place && (Shared(place[d]) || HeldBy(place[d], t))
    requires Shared(w) || HeldBy(w, t)
    requires forall d: nat :: d in cls' <==> if d in ds then InUse(w) else d in cls
    requires forall d: nat :: PlaceAt(Moved(place, ds, w), p, t, d)
    ensures PlacesOk(top, cls', Moved(place, ds, w), pc[t := p])
  {
    hide OwnsPrivate, OwnsPopped, OwnsPushing, OwnsRetiring;
    var place', pc' := Moved(place, ds, w), pc[t := p];
    forall u: nat, d: nat ensures PlaceAt(place', PcOf(pc', u), u, d) {
      if u != t { assert PlaceAt(place, PcOf(pc, u), u, d); }
    }
    assert forall d: nat :: d in place' <==> d < top;
    assert forall d: nat :: d in cls' <==> d in place' && InUse(place'[d]);
  }

  lemma AvailUnmoved(availHead: Head, nextFree: map<nat, Option<nat>>, avail: seq<nat>, place: map<nat, Place>,
        ds: set<nat>, w: Place)
    requires AvailOk(availHead, nextFree, avail, place)
    requires w != Avail && forall d: nat :: d in ds && d in place ==> place[d] != Avail
    ensures AvailOk(availHead, nextFree, avail, Moved(place, ds, w))
  {
    hide IsList;
  }

  lemma PartialsUnmoved(partialHead: map<nat, Head>, nextPartial: map<nat, Option<nat>>, partial: map<nat, seq<nat>>,
        place: map<nat, Place>, cls: map<nat, nat>, cls': map<nat, nat>, ds: set<nat>, w: Place)
    requires PartialsOk(partialHead, nextPartial, partial, place, cls)
    requires w != InPartial && forall d: nat :: d in ds ==> d in place && place[d] != InPartial
    requires forall d: nat :: d !in ds ==> (d in cls' <==> d in cls) && (d in cls ==> cls'[d] == cls[d])
    ensures PartialsOk(partialHead, nextPartial, partial, Moved(place, ds, w), cls')
  {
    hide IsList;
    forall sc: nat ensures PartialAt(partialHead, nextPartial, partial, Moved(place, ds, w), cls', sc) {
      assert PartialAt(partialHead, nextPartial, partial, place, cls, sc);
    }
  }

  lemma SuperblocksMoved(c: Config, cls: map<nat, nat>, cls': map<nat, nat>, anchor: map<nat, Anchor>,
        anchor': map<nat, Anchor>, lists: map<Owner, seq<Loc>>, lists': map<Owner, seq<Loc>>, place: map<nat, Place>,
        ds: set<nat>, w: Place)
    requires SuperblocksOk(c, cls, anchor, lists, place)
    requires forall d: nat :: d !in ds ==> (d in cls' <==> d in cls) && (d in cls ==> cls'[d] == cls[d])
    requires forall d: nat :: d !in ds ==> (d in anchor' <==> d in anchor) && (d in anchor ==> anchor'[d] == anchor[d])
    requires forall d: nat :: d !in ds ==> ListOf(lists', InFree(d)) == ListOf(lists, InFree(d))
    requires forall d: nat :: d in ds ==> SuperblockAt(c, cls', anchor', lists', Moved(place, ds, w), d)
    ensures SuperblocksOk(c, cls', anchor', lists', Moved(place, ds, w))
  {
    hide ListOf, AnchorOk;
    forall d: nat ensures SuperblockAt(c, cls', anchor', lists', Moved(place, ds, w), d) {
      assert SuperblockAt(c, cls, anchor, lists, place, d);
    }
  }

  lemma SuperblockChanged(c: Config, cls: map<nat, nat>, anchor: map<nat, Anchor>, anchor': map<nat, Anchor>,
        lists: map<Owner, seq<Loc>>, lists': map<Owner, seq<Loc>>, place: map<nat, Place>, d: nat)
    requires SuperblocksOk(c, cls, anchor, lists, place)
    requires forall e: nat :: e != d ==> (e in anchor' <==> e in anchor) && (e in anchor ==> anchor'[e] == anchor[e])
    requires forall e: nat :: e != d ==> ListOf(lists', InFree(e)) == ListOf(lists, InFree(e))
    requires SuperblockAt(c, cls, anchor', lists', place, d)
    ensures SuperblocksOk(c, cls, anchor', lists', place)
  {
    hide ListOf, AnchorOk;
    forall e: nat ensures SuperblockAt(c, cls, anchor', lists', place, e) {
      assert SuperblockAt(c, cls, anchor, lists, place, e);
    }
  }

  // ---- the two stacks ----

  lemma StacksAfterPartialPop(availHead: Head, nextFree: map<nat, Option<nat>>, avail: seq<nat>,
        partialHead: map<nat, Head>, nextPartial: map<nat, Option<nat>>, partial: map<nat, seq<nat>>, pc: map<nat, PC>,
        t: nat, p: PC, sc: nat, nx: Option<nat>)
    requires StacksOk(availHead, nextFree, avail, partialHead, nextPartial, partial, pc)
    requires
      var h, l := Get(partialHead, sc, NULL_HEAD), Get(partial, sc, []);
      IsList(nextPartial, h.ptr, l) && l != [] && IsList(nextPartial, nx, l[1..])
    requires p.ResLoad?
    ensures
      var h, l := Get(partialHead, sc, NULL_HEAD), Get(partial, sc, []);
      StacksOk(availHead, nextFree, avail, partialHead[sc := Head(nx, h.cnt)], nextPartial, partial[sc := l[1..]],
        pc[t := p])
  {
    hide IsList, Loaded;
    var h, l := Get(partialHead, sc, NULL_HEAD), Get(partial, sc, []);
    var heads, lists, pc' := partialHead[sc := Head(nx, h.cnt)], partial[sc := l[1..]], pc[t := p];
    forall u: nat ensures StackAt(availHead, nextFree, avail, heads, nextPartial, lists, PcOf(pc', u)) {
      var q := PcOf(pc, u);
      assert StackAt(availHead, nextFree, avail, partialHead, nextPartial, partial, q);
      if u != t && (q.PopNext? || q.PopCas?) && q.sc == sc { LoadedAfterPop(h, nextPartial, l, nx, q.was); }
    }
  }

  lemma StacksAfterPartialPush(availHead: Head, nextFree: map<nat, Option<nat>>, avail: seq<nat>,
        partialHead: map<nat, Head>, nextPartial: map<nat, Option<nat>>, partial: map<nat, seq<nat>>, pc: map<nat, PC>,
        t: nat, p: PC, sc: nat, d: nat, l': seq<nat>)
    requires StacksOk(availHead, nextFree, avail, partialHead, nextPartial, partial, pc)
    requires p.Flush?
    ensures
      var h := Get(partialHead, sc, NULL_HEAD);
      StacksOk(availHead, nextFree, avail, partialHead[sc := Head(Some(d), h.cnt + 1)], nextPartial, partial[sc := l'],
        pc[t := p])
  {
    hide Loaded;
    var h, l := Get(partialHead, sc, NULL_HEAD), Get(partial, sc, []);
    var heads, lists, pc' := partialHead[sc := Head(Some(d), h.cnt + 1)], partial[sc := l'], pc[t := p];
    forall u: nat ensures StackAt(availHead, nextFree, avail, heads, nextPartial, lists, PcOf(pc', u)) {
      var q := PcOf(pc, u);
      assert StackAt(availHead, nextFree, avail, partialHead, nextPartial, partial, q);
      if u != t && (q.PopNext? || q.PopCas?) && q.sc == sc { LoadedAfterPush(h, l, l', Some(d), q.was); }
    }
  }

  lemma StacksAfterAvailPop(availHead: Head, nextFree: map<nat, Option<nat>>, avail: seq<nat>,
        partialHead: map<nat, Head>, nextPartial: map<nat, Option<nat>>, partial: map<nat, seq<nat>>, pc: map<nat, PC>,
        t: nat, p: PC, nx: Option<nat>)
    requires StacksOk(availHead, nextFree, avail, partialHead, nextPartial, partial, pc)
    requires IsList(nextFree, availHead.ptr, avail) && avail != [] && IsList(nextFree, nx, avail[1..])
    requires p.InitSb?
    ensures StacksOk(Head(nx, availHead.cnt), nextFree, avail[1..], partialHead, nextPartial, partial, pc[t := p])
  {
    hide IsList, Loaded;
    var h', l', pc' := Head(nx, availHead.cnt), avail[1..], pc[t := p];
    forall u: nat ensures StackAt(h', nextFree, l', partialHead, nextPartial, partial, PcOf(pc', u)) {
      var q := PcOf(pc, u);
      assert StackAt(availHead, nextFree, avail, partialHead, nextPartial, partial, q);
      if u != t && (q.SbNext? || q.SbCas?) { LoadedAfterPop(availHead, nextFree, avail, nx, q.was); }
    }
  }

  lemma StacksAfterAvailPush(availHead: Head, nextFree: map<nat, Option<nat>>, avail: seq<nat>,
        partialHead: map<nat, Head>, nextPartial: map<nat, Option<nat>>, partial: map<nat, seq<nat>>, pc: map<nat, PC>,
        t: nat, p: PC, first: nat, avail': seq<nat>)
    requires StacksOk(availHead, nextFree, avail, partialHead, nextPartial, partial, pc)
    requires p.InitSb? || p.Fill? || p.Flush?
    ensures StacksOk(Head(Some(first), availHead.cnt + 1), nextFree, avail', partialHead, nextPartial, partial,
      pc[t := p])
  {
    hide Loaded;
    var h', pc' := Head(Some(first), availHead.cnt + 1), pc[t := p];
    forall u: nat ensures StackAt(h', nextFree, avail', partialHead, nextPartial, partial, PcOf(pc', u)) {
      var q := PcOf(pc, u);
      assert StackAt(availHead, nextFree, avail, partialHead, nextPartial, partial, q);
      if u != t && (q.SbNext? || q.SbCas?) { LoadedAfterPush(availHead, avail, avail', Some(first), q.was); }
    }
  }

  /** Writing the next_partial field of a descriptor in nobody else's hands disturbs no pop in progress. */
  lemma StacksAfterPartialWrite(top: nat, cls: map<nat, nat>, place: map<nat, Place>, availHead: Head,
        nextFree: map<nat, Option<nat>>, avail: seq<nat>, partialHead: map<nat, Head>,
        nextPartial: map<nat, Option<nat>>, partial: map<nat, seq<nat>>, pc: map<nat, PC>, t: nat, p: PC, d: nat,
        v: Option<nat>)
    requires StacksOk(availHead, nextFree, avail, partialHead, nextPartial, partial, pc)
    requires PlacesOk(top, cls, place, pc) && PartialsOk(partialHead, nextPartial, partial, place, cls)
    requires d in place && (place[d] == Pushing(t) || place[d] == Retiring(t))
    requires StackAt(availHead, nextFree, avail, partialHead, nextPartial[d := v], partial, p)
    ensures StacksOk(availHead, nextFree, avail, partialHead, nextPartial[d := v], partial, pc[t := p])
    ensures PartialsOk(partialHead, nextPartial[d := v], partial, place, cls)
  {
    hide Loaded;
    var next', pc' := nextPartial[d := v], pc[t := p];
    forall sc: nat ensures PartialAt(partialHead, next', partial, place, cls, sc) {
      assert PartialAt(partialHead, nextPartial, partial, place, cls, sc);
      ScribbleOutside(nextPartial, Get(partialHead, sc, NULL_HEAD).ptr, Get(partial, sc, []), d, v);
    }
    forall u: nat ensures StackAt(availHead, nextFree, avail, partialHead, next', partial, PcOf(pc', u)) {
      var q := PcOf(pc, u);
      assert StackAt(availHead, nextFree, avail, partialHead, nextPartial, partial, q);
      if u != t && q.PopCas? {
        assert PartialAt(partialHead, nextPartial, partial, place, cls, q.sc);
        assert q.was == Get(partialHead, q.sc, NULL_HEAD) ==> q.was.ptr.value in Get(partial, q.sc, []);
      } else if u != t && q.PpCas? {
        assert PlaceAt(place, q, u, q.d);
      }
    }
  }

  /** The same for next_free. */
  lemma StacksAfterFreeWrite(top: nat, cls: map<nat, nat>, place: map<nat, Place>, availHead: Head,
        nextFree: map<nat, Option<nat>>, avail: seq<nat>, partialHead: map<nat, Head>,
        nextPartial: map<nat, Option<nat>>, partial: map<nat, seq<nat>>, pc: map<nat, PC>, t: nat, p: PC, d: nat,
        v: Option<nat>)
    requires StacksOk(availHead, nextFree, avail, partialHead, nextPartial, partial, pc)
    requires PlacesOk(top, cls, place, pc) && AvailOk(availHead, nextFree, avail, place)
    requires d in place && (place[d] == Private(t) || place[d] == Retiring(t))
    requires StackAt(availHead, nextFree[d := v], avail, partialHead, nextPartial, partial, p)
    ensures StacksOk(availHead, nextFree[d := v], avail, partialHead, nextPartial, partial, pc[t := p])
    ensures AvailOk(availHead, nextFree[d := v], avail, place)
  {
    hide StackAt, IsList;
    ScribbleOutside(nextFree, availHead.ptr, avail, d, v);
    var next', pc' := nextFree[d := v], pc[t := p];
    forall u: nat ensures StackAt(availHead, next', avail, partialHead, nextPartial, partial, PcOf(pc', u)) {
      if u != t {
        assert PlaceAt(place, PcOf(pc, u), u, d);
        FreeWriteElsewhere(availHead, nextFree, avail, partialHead, nextPartial, partial, PcOf(pc, u), d, v);
      }
    }
  }

  lemma FreeWriteElsewhere(availHead: Head, nextFree: map<nat, Option<nat>>, avail: seq<nat>,
        partialHead: map<nat, Head>, nextPartial: map<nat, Option<nat>>, partial: map<nat, seq<nat>>, q: PC, d: nat,
        v: Option<nat>)
    requires StackAt(availHead, nextFree, avail, partialHead, nextPartial, partial, q)
    requires IsList(nextFree, availHead.ptr, avail) && d !in avail && !OwnsPrivate(q, d)
    ensures StackAt(availHead, nextFree[d := v], avail, partialHead, nextPartial, partial, q)
  {
    hide Loaded, NoDup;
    if q.SbCas? && q.was == availHead { assert q.was.ptr.value in avail; }
  }

  // ---- handing over blocks ----

  function Reowned(owner: map<Loc, Owner>, l: seq<Loc>, o: Owner): map<Loc, Owner> {
    map b | b in owner :: if b in l then o else owner[b]
  }

  /** Blocks l pass from one owner to another; rest and to' spell out what the two have afterwards. */
  lemma HandOver(owner: map<Loc, Owner>, lists: map<Owner, seq<Loc>>, l: seq<Loc>, from: Owner, rest: seq<Loc>,
        to: Owner, to': seq<Loc>)
    requires OwnersOk(owner, lists) && from != to && NoDup(rest) && NoDup(to')
    requires forall b :: b in ListOf(lists, from) <==> b in l || b in rest
    requires forall b :: b in l ==> b !in rest
    requires forall b :: b in to' <==> b in l || b in ListOf(lists, to)
    ensures OwnersOk(Reowned(owner, l, to), lists[from := rest][to := to'])
  {
    hide NoDup;
    var owner', lists' := Reowned(owner, l, to), lists[from := rest][to := to'];
    assert Lists(owner, ListOf(lists, from), from) && Lists(owner, ListOf(lists, to), to);
    forall o ensures Lists(owner', ListOf(lists', o), o) {
      assert Lists(owner, ListOf(lists, o), o);
      forall b ensures b in ListOf(lists', o) <==> Holds(owner', b, o) {
        if b in l { assert b in ListOf(lists, from); }
      }
    }
  }

  lemma DomainReowned(c: Config, cls: map<nat, nat>, owner: map<Loc, Owner>, l: seq<Loc>, o: Owner)
    requires DomainOk(c, cls, owner)
    ensures DomainOk(c, cls, Reowned(owner, l, o))
  {
  }

  lemma SuperblocksListed(c: Config, cls: map<nat, nat>, anchor: map<nat, Anchor>, lists: map<Owner, seq<Loc>>,
        lists': map<Owner, seq<Loc>>, place: map<nat, Place>)
    requires SuperblocksOk(c, cls, anchor, lists, place)
    requires forall d: nat :: ListOf(lists', InFree(d)) == ListOf(lists, InFree(d))
    ensures SuperblocksOk(c, cls, anchor, lists', place)
  {
    hide ListOf, AnchorOk;
    forall d: nat ensures SuperblockAt(c, cls, anchor, lists', place, d) {
      assert SuperblockAt(c, cls, anchor, lists, place, d);
    }
  }

  /** Relinking after a hand-over: only the two lists concerned have to be looked at. */
  lemma LinksHandedOver(link: map<Loc, Loc>, lists: map<Owner, seq<Loc>>, from: Owner, rest: seq<Loc>, to: Owner,
        to': seq<Loc>)
    requires LinksOk(link, lists) && from != to
    requires from != User ==> Chained(link, rest)
    requires to != User ==> Chained(link, to')
    ensures LinksOk(link, lists[from := rest][to := to'])
  {
    hide Chained;
    var lists' := lists[from := rest][to := to'];
    forall o | o != User ensures Chained(link, ListOf(lists', o)) {
      assert ListOf(lists', o) == if o == to then to' else if o == from then rest else ListOf(lists, o);
    }
  }

  /** A write to a block that is in no batch leaves every batch linked on as it was. */
  lemma BatchesAfterWrite(owner: map<Loc, Owner>, link: map<Loc, Loc>, cls: map<nat, nat>, lists: map<Owner, seq<Loc>>,
        pc: map<nat, PC>, o: Owner, b: Loc, v: Loc)
    requires OwnersOk(owner, lists) && BatchesOk(link, cls, lists, pc)
    requires b in ListOf(lists, o) && !o.InBatch?
    ensures BatchesOk(link[b := v], cls, lists, pc)
  {
    hide ListOf, NoDup;
    var link' := link[b := v];
    forall u: nat ensures BatchAt(link', cls, lists, PcOf(pc, u), u) {
      assert BatchAt(link, cls, lists, PcOf(pc, u), u);
      DisjointLists(owner, lists, o, InBatch(u));
      if Flushing(PcOf(pc, u)) { assert PcOf(pc, u).run.tail in ListOf(lists, InBatch(u)); }
    }
  }

  lemma SplitNoDup<T>(a: seq<T>, b: seq<T>)
    requires NoDup(a + b)
    ensures NoDup(a) && NoDup(b) && forall x :: x in a ==> x !in b
  {
    forall i, j | 0 <= i < j < |a| ensures a[i] != a[j] { assert (a + b)[i] == a[i] && (a + b)[j] == a[j]; }
    forall i, j | 0 <= i < j < |b| ensures b[i] != b[j] { assert (a + b)[|a| + i] == b[i] && (a + b)[|a| + j] == b[j]; }
    forall x | x in a ensures x !in b {
      var i :| 0 <= i < |a| && a[i] == x;
      assert forall j :: 0 <= j < |b| ==> (a + b)[i] == x && (a + b)[|a| + j] == b[j];
    }
  }

  lemma NoDupConcat<T>(a: seq<T>, b: seq<T>)
    requires NoDup(a) && NoDup(b) && forall x :: x in a ==> x !in b
    ensures NoDup(a + b)
  {
    forall i, j | 0 <= i < j < |a + b| ensures (a + b)[i] != (a + b)[j] {
      if i < |a| <= j { assert (a + b)[i] in a && (a + b)[j] in b; }
    }
  }

  /** Different owners have different blocks. */
  lemma DisjointLists(owner: map<Loc, Owner>, lists: map<Owner, seq<Loc>>, o: Owner, o': Owner)
    requires OwnersOk(owner, lists) && o != o'
    ensures NoDup(ListOf(lists, o)) && NoDup(ListOf(lists, o'))
    ensures forall b :: b in ListOf(lists, o) ==> b !in ListOf(lists, o')
    ensures NoDup(ListOf(lists, o) + ListOf(lists, o'))
  {
    hide NoDup, ListOf;
    assert Lists(owner, ListOf(lists, o), o) && Lists(owner, ListOf(lists, o'), o');
    NoDupConcat(ListOf(lists, o), ListOf(lists, o'));
  }

  /** Writing the word of a block keeps every list linked that does not have the block before its end. */
  lemma LinksAfterWrite(owner: map<Loc, Owner>, link: map<Loc, Loc>, lists: map<Owner, seq<Loc>>, o: Owner, b: Loc,
        v: Loc)
    requires OwnersOk(owner, lists) && LinksOk(link, lists)
    requires b in ListOf(lists, o) && (o == User || b == ListOf(lists, o)[|ListOf(lists, o)| - 1])
    ensures LinksOk(link[b := v], lists)
  {
    forall o' | o' != User ensures Chained(link[b := v], ListOf(lists, o')) {
      var l := ListOf(lists, o');
      if o' == o {
        assert Lists(owner, l, o);
      } else {
        DisjointLists(owner, lists, o, o');
      }
    }
  }

  lemma ChainedConcat(link: map<Loc, Loc>, a: seq<Loc>, b: seq<Loc>)
    requires Chained(link, a) && Chained(link, b)
    requires a != [] && b != [] ==> Word(link, a[|a| - 1]) == b[0]
    ensures Chained(link, a + b)
  {
  }

  lemma ChainedSplit(link: map<Loc, Loc>, l: seq<Loc>, n: nat)
    requires Chained(link, l) && n <= |l|
    ensures Chained(link, l[..n]) && Chained(link, l[n..])
    ensures 0 < n < |l| ==> Word(link, l[..n][n - 1]) == l[n..][0]
  {
  }

  /** Which lists changed decides which caches, batches and pending blocks need another look. */
  lemma CachesUntouched(cls: map<nat, nat>, cls': map<nat, nat>, cache: map<(nat, nat), Cache>,
        lists: map<Owner, seq<Loc>>, lists': map<Owner, seq<Loc>>)
    requires CachesOk(cls, cache, lists)
    requires forall t: nat, sc: nat :: ListOf(lists', InCache(t, sc)) == ListOf(lists, InCache(t, sc))
    requires cls' == cls || forall t: nat, sc: nat, b :: b in ListOf(lists, InCache(t, sc)) ==> Holds(cls', b.sb, sc)
    ensures CachesOk(cls', cache, lists')
  {
    forall t: nat, sc: nat ensures CacheAt(cls', cache, lists', t, sc) {
      assert CacheAt(cls, cache, lists, t, sc);
    }
  }

  lemma CacheChanged(cls: map<nat, nat>, cls': map<nat, nat>, cache: map<(nat, nat), Cache>,
        lists: map<Owner, seq<Loc>>, lists': map<Owner, seq<Loc>>, t: nat, sc: nat, q: Cache)
    requires CachesOk(cls, cache, lists)
    requires forall u: nat, k: nat :: u != t || k != sc ==>
      ListOf(lists', InCache(u, k)) == ListOf(lists, InCache(u, k))
    requires forall d: nat :: d in cls ==> d in cls' && cls'[d] == cls[d]
    requires var l := ListOf(lists', InCache(t, sc));
             q.num == |l| && StartsAt(l, q.head) && forall b :: b in l ==> Holds(cls', b.sb, sc)
    ensures CachesOk(cls', cache[(t, sc) := q], lists')
  {
    hide StartsAt;
    var cache' := cache[(t, sc) := q];
    forall u: nat, k: nat ensures CacheAt(cls', cache', lists', u, k) {
      assert CacheAt(cls, cache, lists, u, k);
      if u != t || k != sc { assert (u, k) != (t, sc); }
    }
  }

  lemma BatchesChanged(link: map<Loc, Loc>, link': map<Loc, Loc>, cls: map<nat, nat>, cls': map<nat, nat>,
        lists: map<Owner, seq<Loc>>, lists': map<Owner, seq<Loc>>, pc: map<nat, PC>, t: nat, p: PC)
    requires BatchesOk(link, cls, lists, pc)
    requires forall u: nat :: u != t ==> ListOf(lists', InBatch(u)) == ListOf(lists, InBatch(u))
    requires (link' == link && cls' == cls) || forall u: nat :: u != t && Flushing(PcOf(pc, u)) ==>
               var q := PcOf(pc, u);
               Holds(cls', q.run.head.sb, q.sc) && Word(link', q.run.tail) == Word(link, q.run.tail)
    requires BatchAt(link', cls', lists', p, t)
    ensures BatchesOk(link', cls', lists', pc[t := p])
  {
    hide ListOf, Word;
    var pc' := pc[t := p];
    forall u: nat ensures BatchAt(link', cls', lists', PcOf(pc', u), u) {
      assert BatchAt(link, cls, lists, PcOf(pc, u), u);
    }
  }

  lemma PendsChanged(cls: map<nat, nat>, cls': map<nat, nat>, lists: map<Owner, seq<Loc>>,
        lists': map<Owner, seq<Loc>>, pc: map<nat, PC>, t: nat, p: PC)
    requires PendsOk(cls, lists, pc)
    requires forall u: nat :: u != t ==> ListOf(lists', Pending(u)) == ListOf(lists, Pending(u))
    requires cls' == cls || forall u: nat :: u != t && PendOf(PcOf(pc, u)).Some? ==>
               var b := PendOf(PcOf(pc, u)).value; b.sb in cls && b.sb in cls' && cls'[b.sb] == cls[b.sb]
    requires PendAt(cls', lists', p, t)
    ensures PendsOk(cls', lists', pc[t := p])
  {
    hide ListOf, PendOf, ClassOf;
    var pc' := pc[t := p];
    forall u: nat ensures PendAt(cls', lists', PcOf(pc', u), u) {
      assert PendAt(cls, lists, PcOf(pc, u), u);
    }
  }

  lemma FillsChanged(cache: map<(nat, nat), Cache>, cache': map<(nat, nat), Cache>, pc: map<nat, PC>, t: nat, p: PC)
    requires FillsOk(cache, pc)
    requires forall u: nat, sc: nat :: u != t ==> Get(cache', (u, sc), NO_CACHE) == Get(cache, (u, sc), NO_CACHE)
    requires FillAt(cache', p, t)
    ensures FillsOk(cache', pc[t := p])
  {
    hide ClassOf, Filling;
    var pc' := pc[t := p];
    forall u: nat ensures FillAt(cache', PcOf(pc', u), u) {
      assert FillAt(cache, PcOf(pc, u), u);
    }
  }

  /** A superblock's anchor or class may change as long as no other thread relies on it. */
  lemma SeenChanged(c: Config, cls: map<nat, nat>, cls': map<nat, nat>, anchor: map<nat, Anchor>,
        anchor': map<nat, Anchor>, pc: map<nat, PC>, t: nat, p: PC)
    requires SeenOk(c, cls, anchor, pc)
    requires forall u: nat :: u != t && Flushing(PcOf(pc, u)) ==>
      Get(cls', PcOf(pc, u).run.head.sb, 0) == Get(cls, PcOf(pc, u).run.head.sb, 0)
    requires forall u: nat :: u != t && HasDesc(PcOf(pc, u)) ==>
               var d := PcOf(pc, u).d; d in cls && d in cls' && cls'[d] == cls[d]
    requires forall u: nat :: u != t && SawEmpty(PcOf(pc, u)) ==>
               var d := PcOf(pc, u).d; d in anchor && d in anchor' && anchor'[d] == anchor[d]
    requires SeenAt(c, cls', anchor', p)
    ensures SeenOk(c, cls', anchor', pc[t := p])
  {
    hide ClassOf;
    var pc' := pc[t := p];
    forall u: nat ensures SeenAt(c, cls', anchor', PcOf(pc', u)) {
      var q := PcOf(pc, u);
      assert SeenAt(c, cls, anchor, q);
    }
  }

  // ---- fresh superblocks ----

  function Grown(place: map<nat, Place>, lo: nat, n: nat, t: nat): map<nat, Place> {
    place + map d: nat | lo <= d < lo + n :: FreshPlace(t, d)
  }

  function FreshPlace(t: nat, d: nat): Place { Private(t) }

  lemma PlacesGrown(top: nat, cls: map<nat, nat>, place: map<nat, Place>, pc: map<nat, PC>, t: nat, p: PC, n: nat)
    requires PlacesOk(top, cls, place, pc)
    requires forall d: nat :: PlaceAt(Grown(place, top, n, t), p, t, d)
    ensures PlacesOk(top + n, cls, Grown(place, top, n, t), pc[t := p])
  {
    hide OwnsPrivate, OwnsPopped, OwnsPushing, OwnsRetiring;
    var place', pc' := Grown(place, top, n, t), pc[t := p];
    forall u: nat, d: nat ensures PlaceAt(place', PcOf(pc', u), u, d) {
      if u != t { assert PlaceAt(place, PcOf(pc, u), u, d); }
    }
  }

  lemma SuperblocksGrown(c: Config, top: nat, cls: map<nat, nat>, anchor: map<nat, Anchor>,
        lists: map<Owner, seq<Loc>>, place: map<nat, Place>, t: nat, n: nat)
    requires SuperblocksOk(c, cls, anchor, lists, place)
    requires (forall d: nat :: d in place <==> d < top) && (forall d: nat :: d in cls ==> d < top)
    ensures SuperblocksOk(c, cls, anchor, lists, Grown(place, top, n, t))
  {
    hide AnchorOk;
    forall d: nat ensures SuperblockAt(c, cls, anchor, lists, Grown(place, top, n, t), d) {
      assert SuperblockAt(c, cls, anchor, lists, place, d);
    }
  }

  lemma PartialsGrown(partialHead: map<nat, Head>, nextPartial: map<nat, Option<nat>>, partial: map<nat, seq<nat>>,
        place: map<nat, Place>, cls: map<nat, nat>, top: nat, t: nat, n: nat)
    requires PartialsOk(partialHead, nextPartial, partial, place, cls)
    requires forall d: nat :: d in place <==> d < top
    ensures PartialsOk(partialHead, nextPartial, partial, Grown(place, top, n, t), cls)
  {
    hide IsList;
    forall sc: nat ensures PartialAt(partialHead, nextPartial, partial, Grown(place, top, n, t), cls, sc) {
      assert PartialAt(partialHead, nextPartial, partial, place, cls, sc);
    }
  }

  /** Next fields written for superblocks above top reach no list and no chain in anybody's hands. */
  lemma AvailGrown(top: nat, cls: map<nat, nat>, place: map<nat, Place>, availHead: Head,
        nextFree: map<nat, Option<nat>>, avail: seq<nat>, partialHead: map<nat, Head>,
        nextPartial: map<nat, Option<nat>>, partial: map<nat, seq<nat>>, pc: map<nat, PC>, t: nat, p: PC, n: nat)
    requires n >= 2
    requires StacksOk(availHead, nextFree, avail, partialHead, nextPartial, partial, pc)
    requires PlacesOk(top, cls, place, pc) && AvailOk(availHead, nextFree, avail, place)
    requires StackAt(availHead, nextFree
      + FreshChain(top + 1, top + n - 1), avail, partialHead, nextPartial, partial, p)
    ensures AvailOk(availHead, nextFree + FreshChain(top + 1, top + n - 1), avail, Grown(place, top, n, t))
    ensures StacksOk(availHead, nextFree
      + FreshChain(top + 1, top + n - 1), avail, partialHead, nextPartial, partial, pc[t := p])
  {
    hide StackAt;
    var next', pc' := nextFree + FreshChain(top + 1, top + n - 1), pc[t := p];
    assert Lists(place, avail, Avail);
    forall i | 0 <= i < |avail| ensures avail[i] < top { assert Holds(place, avail[i], Avail); }
    forall u: nat ensures StackAt(availHead, next', avail, partialHead, nextPartial, partial, PcOf(pc', u)) {
      if u != t {
        var q := PcOf(pc, u);
        forall d: nat ensures OwnsPrivate(q, d) ==> d < top { assert PlaceAt(place, q, u, d); }
        FreeGrowthElsewhere(availHead, nextFree, next', avail, partialHead, nextPartial, partial, q, top);
      }
    }
  }

  lemma FreeGrowthElsewhere(availHead: Head, nextFree: map<nat, Option<nat>>, next': map<nat, Option<nat>>,
        avail: seq<nat>, partialHead: map<nat, Head>, nextPartial: map<nat, Option<nat>>, partial: map<nat, seq<nat>>,
        q: PC, top: nat)
    requires StackAt(availHead, nextFree, avail, partialHead, nextPartial, partial, q)
    requires availHead.ptr == PtrAt(avail, 0) && forall d :: d in avail ==> d < top
    requires forall d: nat :: OwnsPrivate(q, d) ==> d < top
    requires forall d: nat :: d < top ==> (d in next' <==> d in nextFree) && (d in nextFree ==> next'[d] == nextFree[d])
    ensures StackAt(availHead, next', avail, partialHead, nextPartial, partial, q)
  {
    hide Loaded;
    if q.SbCas? && q.was == availHead { assert q.was.ptr.value in avail; }
    if q.ChLoad? || q.ChLink? || q.ChCas? {
      assert OwnsPrivate(q, q.last);
    }
  }

  function Range(first: nat, last: nat): (r: seq<nat>)
    requires first <= last
    ensures |r| == last - first + 1 && forall i :: 0 <= i < |r| ==> r[i] == first + i
    ensures forall d: nat :: d in r <==> first <= d <= last
    decreases last - first
  {
    [first] + if first == last then [] else Range(first + 1, last)
  }

  /** The superblocks first..last as a set. */
  function Span(first: nat, last: nat): (ds: set<nat>)
    requires first <= last
    ensures forall d: nat :: d in ds <==> first <= d <= last
  {
    set d | d in Range(first, last)
  }

  lemma AvailAfterPush(availHead: Head, nextFree: map<nat, Option<nat>>, avail: seq<nat>, place: map<nat, Place>,
        first: nat, last: nat)
    requires AvailOk(availHead, nextFree, avail, place) && first <= last
    requires forall d: nat :: d in Span(first, last) ==> d in place && place[d] != Avail
    requires forall d: nat :: first <= d < last ==> Get(nextFree, d, None) == FreshNext(last, d)
    requires Holds(nextFree, last, availHead.ptr)
    ensures forall d :: d in Range(first, last) ==> d !in avail
    ensures AvailOk(Head(Some(first), availHead.cnt + 1), nextFree, Range(first, last)
      + avail, Moved(place, Span(first, last), Avail))
  {
    hide IsList, Range;
    var r, place' := Range(first, last), Moved(place, Span(first, last), Avail);
    forall d | d in r ensures d !in avail { assert d in Span(first, last); }
    ChainOnTop(availHead, nextFree, avail, first, last);
    assert NoDup(r + avail) by { NoDupConcat(r, avail); }
    forall d: nat ensures d in r + avail <==> Holds(place', d, Avail) { }
  }

  lemma ChainOnTop(head: Head, next: map<nat, Option<nat>>, l: seq<nat>, first: nat, last: nat)
    requires IsList(next, head.ptr, l) && first <= last
    requires forall d :: d in Range(first, last) ==> d !in l
    requires forall d: nat :: first <= d < last ==> Get(next, d, None) == FreshNext(last, d)
    requires Holds(next, last, head.ptr)
    ensures IsList(next, Some(first), Range(first, last) + l)
  {
    hide IsList, Range;
    var r := Range(first, last);
    forall d | d in r ensures d in next && next[d] == if d < last then Some(d + 1) else head.ptr {
      if d < last { assert Get(next, d, None) == FreshNext(last, d); }
    }
    assert forall i :: 0 <= i < |r| ==> r[i] in r;
    PushIsSequential(head, next, l, r);
  }
}
